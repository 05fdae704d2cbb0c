/** The runner as a step system: submissions, workers, aborts, and the coordinator that ends it. Every
    accepted occurrence is a position of `locs`; the queue, each worker and the cleanup hold those whose
    location says so. The queue reports closed only when it is closed and empty. */
module RunnerLifecycle {
  import opened RunnerRetry

  datatype Holder = Worker(index: nat) | Cleanup

  datatype Loc = Queued | HeldBy(holder: Holder) | Ended(state: Terminal)

  /** A submission counts what it pushed, and records it before it unregisters. */
  datatype Submission = Pushing(pushed: nat) | Recorded

  datatype Phase = Polling | Holding | Exited

  datatype Coordinator =
    NotStarted | AwaitAdmissions | CloseQueue | JoinWorkers | CloseAfterJoin | Decide | CleanQueued | Publish | Completed

  /** `interrupted` and `cleanupFailed` are history: the occurrences that a handler reported as interrupted by
      its peer, and whether the cleanup ended on an error other than closure. The cleanup receives from a
      closed queue without a deadline, so the queue owes it no such error. */
  datatype State = State(
    stopped: bool,
    aborted: bool,
    published: bool,
    closed: bool,
    submissions: map<nat, Submission>,
    workers: map<nat, Phase>,
    coordinator: Coordinator,
    locs: seq<Loc>,
    accepted: nat,
    succeeded: nat,
    failed: nat,
    abandoned: nat,
    interrupted: set<nat>,
    cleanupFailed: bool)
  {
    function Started(): State {
      this.(stopped := true, coordinator := if coordinator.NotStarted? then AwaitAdmissions else coordinator)
    }
  }

  ghost predicate Init(s: State) {
    && !s.stopped && !s.aborted && !s.published && !s.closed && s.submissions == map[]
    && s.workers != map[] && (forall w | w in s.workers :: s.workers[w] == Polling)
    && s.coordinator == NotStarted && s.locs == []
    && s.accepted == s.succeeded == s.failed == s.abandoned == 0 && s.interrupted == {}
    && !s.cleanupFailed
  }

  /** `marked` says that an occurrence ends on a handler's interrupted result. That needs the marker of a
      cancelled context and not an abort of this runner. */
  datatype Action =
    | Register(c: nat)
    | Push(c: nat)
    | Record(c: nat)
    | Unregister(c: nat)
    | StopAdmission
    | Abort
    | PublishAbort
    | Take(w: nat, id: nat)
    | Finalize(w: nat, id: nat, state: Terminal, marked: bool)
    | Resume(w: nat)
    | ExitClosed(w: nat)
    | ExitAborted(w: nat)
    | ReceiveError(w: nat)
    | Coordinate
    | CleanTake(id: nat)
    | CleanFinalize(id: nat)
    | CleanError

  ghost predicate NoneAt(s: State, loc: Loc) {
    forall i | 0 <= i < |s.locs| :: s.locs[i] != loc
  }

  ghost predicate CoordinatorReady(s: State) {
    match s.coordinator
    case NotStarted => false
    case AwaitAdmissions => s.stopped && s.submissions == map[] && (s.aborted ==> s.published)
    case CloseQueue => true
    case JoinWorkers => forall w | w in s.workers :: s.workers[w] == Exited
    case CloseAfterJoin => s.aborted ==> s.published
    case Decide => s.aborted ==> s.published
    case CleanQueued => s.closed && NoneAt(s, Queued) && NoneAt(s, HeldBy(Cleanup))
    case Publish => s.aborted ==> s.published
    case Completed => false
  }

  ghost predicate Enabled(s: State, x: Action) {
    match x
    case Register(c) => !s.stopped && c !in s.submissions
    case Push(c) => c in s.submissions && s.submissions[c].Pushing? && !s.closed
    case Record(c) => c in s.submissions && s.submissions[c].Pushing?
    case Unregister(c) => c in s.submissions && s.submissions[c].Recorded?
    case StopAdmission => true
    case Abort => true
    case PublishAbort => s.aborted
    case Take(w, id) =>
      w in s.workers && s.workers[w] != Exited && id < |s.locs| && s.locs[id] == Queued
    case Finalize(w, id, state, marked) =>
      && w in s.workers && s.workers[w] == Holding && id < |s.locs| && s.locs[id] == HeldBy(Worker(w))
      && (marked ==> state == Abandoned) && (state == Abandoned ==> marked || s.aborted)
    case Resume(w) => w in s.workers && s.workers[w] == Holding && NoneAt(s, HeldBy(Worker(w)))
    case ExitClosed(w) => w in s.workers && s.workers[w] == Polling && s.closed && NoneAt(s, Queued)
    case ExitAborted(w) => w in s.workers && s.workers[w] == Polling && s.aborted
    case ReceiveError(w) => w in s.workers && s.workers[w] == Polling
    case Coordinate => CoordinatorReady(s)
    case CleanTake(id) => s.coordinator == CleanQueued && id < |s.locs| && s.locs[id] == Queued
    case CleanFinalize(id) => s.coordinator == CleanQueued && id < |s.locs| && s.locs[id] == HeldBy(Cleanup)
    case CleanError => s.coordinator == CleanQueued && NoneAt(s, HeldBy(Cleanup))
  }

  function Counted(s: State, state: Terminal): State {
    s.(succeeded := s.succeeded + if state.Succeeded? then 1 else 0,
       failed := s.failed + if state.Failed? then 1 else 0,
       abandoned := s.abandoned + if state.Abandoned? then 1 else 0)
  }

  /** The coordinator closes the queue before joining workers that are not aborted, and after joining. */
  predicate Closes(c: Coordinator) {
    c.CloseQueue? || c.CloseAfterJoin?
  }

  function Following(c: Coordinator, aborted: bool): Coordinator {
    match c
    case NotStarted => NotStarted
    case AwaitAdmissions => if aborted then JoinWorkers else CloseQueue
    case CloseQueue => JoinWorkers
    case JoinWorkers => CloseAfterJoin
    case CloseAfterJoin => Decide
    case Decide => if aborted then CleanQueued else Publish
    case CleanQueued => Publish
    case Publish => Completed
    case Completed => Completed
  }

  ghost function Apply(s: State, x: Action): State
    requires Enabled(s, x)
  {
    match x
    case Register(c) => s.(submissions := s.submissions[c := Pushing(0)])
    case Push(c) =>
      s.(submissions := s.submissions[c := Pushing(s.submissions[c].pushed + 1)], locs := s.locs + [Queued])
    case Record(c) =>
      s.(submissions := s.submissions[c := Recorded], accepted := s.accepted + s.submissions[c].pushed)
    case Unregister(c) => s.(submissions := s.submissions - {c})
    case StopAdmission => s.Started()
    case Abort => if s.coordinator.Completed? || s.aborted then s else s.(aborted := true).Started()
    case PublishAbort => s.(published := true)
    case Take(w, id) => s.(workers := s.workers[w := Holding], locs := s.locs[id := HeldBy(Worker(w))])
    case Finalize(w, id, state, marked) =>
      Counted(s.(locs := s.locs[id := Ended(state)], interrupted := if marked then s.interrupted + {id} else s.interrupted),
              state)
    case Resume(w) => s.(workers := s.workers[w := Polling])
    case ExitClosed(w) => s.(workers := s.workers[w := Exited])
    case ExitAborted(w) => s.(workers := s.workers[w := Exited])
    case ReceiveError(w) => s.(aborted := true, workers := s.workers[w := Exited]).Started()
    case Coordinate => s.(closed := s.closed || Closes(s.coordinator), coordinator := Following(s.coordinator, s.aborted))
    case CleanTake(id) => s.(locs := s.locs[id := HeldBy(Cleanup)])
    case CleanFinalize(id) => Counted(s.(locs := s.locs[id := Ended(Abandoned)]), Abandoned)
    case CleanError => s.(cleanupFailed := true, coordinator := Publish)
  }

  ghost predicate Next(s: State, s': State) {
    exists x :: Enabled(s, x) && s' == Apply(s, x)
  }

  ghost predicate Run(run: seq<State>) {
    && |run| > 0 && Init(run[0])
    && forall i | 0 <= i < |run| - 1 :: Next(run[i], run[i + 1])
  }

  // ---------------------------------------------------------------------------------------
  // Counting

  function CountOf(locs: seq<Loc>, loc: Loc): nat {
    if locs == [] then 0 else CountOf(locs[..|locs| - 1], loc) + if locs[|locs| - 1] == loc then 1 else 0
  }

  lemma CountPush(locs: seq<Loc>, last: Loc, loc: Loc)
    ensures CountOf(locs + [last], loc) == CountOf(locs, loc) + if last == loc then 1 else 0
  {
    assert (locs + [last])[..|locs|] == locs;
  }

  lemma {:induction false} CountUpdate(locs: seq<Loc>, i: nat, to: Loc, loc: Loc)
    requires i < |locs|
    ensures CountOf(locs[i := to], loc) + (if locs[i] == loc then 1 else 0) == CountOf(locs, loc) + (if to == loc then 1 else 0)
  {
    var n := |locs| - 1;
    if i == n {
      assert locs[i := to][..n] == locs[..n];
    } else {
      CountUpdate(locs[..n], i, to, loc);
      assert locs[i := to][..n] == locs[..n][i := to] && locs[i := to][n] == locs[n];
    }
  }

  /** When every occurrence has ended or is still queued, the counts add up to all of them. */
  lemma {:induction false} AllEnded(locs: seq<Loc>)
    requires forall i | 0 <= i < |locs| :: locs[i].Ended? || locs[i] == Queued
    ensures
      CountOf(locs, Ended(Succeeded)) + CountOf(locs, Ended(Failed)) + CountOf(locs, Ended(Abandoned)) + CountOf(locs, Queued)
        == |locs|
    ensures CountOf(locs, Queued) == 0 <==> forall i | 0 <= i < |locs| :: locs[i].Ended?
  {
    if locs != [] {
      var front, last := locs[..|locs| - 1], locs[|locs| - 1];
      AllEnded(front);
      assert locs == front + [last];
      CountPush(front, last, Ended(Succeeded));
      CountPush(front, last, Ended(Failed));
      CountPush(front, last, Ended(Abandoned));
      CountPush(front, last, Queued);
      hide CountOf;
      assert last == Ended(Succeeded) || last == Ended(Failed) || last == Ended(Abandoned) || last == Queued by {
        if last.Ended? {
          match last.state case Succeeded => case Failed => case Abandoned =>
        }
      }
      assert forall i | 0 <= i < |front| :: locs[i] == front[i];
      assert (forall i | 0 <= i < |locs| :: locs[i].Ended?) <==> (forall i | 0 <= i < |front| :: front[i].Ended?) && last.Ended?;
    }
  }

  /** Pushed and not yet recorded. */
  function PendingOf(s: Submission): nat {
    match s case Pushing(n) => n case Recorded => 0
  }

  ghost function Unrecorded(submissions: map<nat, Submission>): nat
    decreases |submissions|
  {
    if submissions == map[] then 0
    else
      var c :| c in submissions;
      PendingOf(submissions[c]) + Unrecorded(submissions - {c})
  }

  lemma {:induction false} UnrecordedWithout(submissions: map<nat, Submission>, c: nat)
    requires c in submissions
    ensures Unrecorded(submissions) == PendingOf(submissions[c]) + Unrecorded(submissions - {c})
    decreases |submissions|
  {
    var first :| first in submissions
      && Unrecorded(submissions) == PendingOf(submissions[first]) + Unrecorded(submissions - {first});
    if first != c {
      UnrecordedWithout(submissions - {first}, c);
      UnrecordedWithout(submissions - {c}, first);
      assert submissions - {first} - {c} == submissions - {c} - {first};
    }
  }

  lemma UnrecordedUpdate(submissions: map<nat, Submission>, c: nat, to: Submission)
    ensures c in submissions ==>
      Unrecorded(submissions[c := to]) + PendingOf(submissions[c]) == Unrecorded(submissions) + PendingOf(to)
    ensures c !in submissions ==> Unrecorded(submissions[c := to]) == Unrecorded(submissions) + PendingOf(to)
  {
    UnrecordedWithout(submissions[c := to], c);
    if c in submissions {
      UnrecordedWithout(submissions, c);
      assert submissions[c := to] - {c} == submissions - {c};
    } else {
      assert submissions[c := to] - {c} == submissions;
    }
  }
}
