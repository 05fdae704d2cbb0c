/** Conservation: what every step of the runner keeps, and what it means when the runner is done. */
module RunnerTheorems {
  import opened RunnerRetry
  import opened RunnerLifecycle

  /** Past the end of admission. */
  predicate Closing(c: Coordinator) {
    !c.NotStarted? && !c.AwaitAdmissions?
  }

  /** Past the join of the workers. */
  predicate Joined(c: Coordinator) {
    c.CloseAfterJoin? || c.Decide? || c.CleanQueued? || c.Publish? || c.Completed?
  }

  predicate Ending(c: Coordinator) {
    c.Publish? || c.Completed?
  }

  ghost predicate AdmissionInv(s: State) {
    && (!s.coordinator.NotStarted? ==> s.stopped)
    && (Closing(s.coordinator) ==> s.submissions == map[])
    && (s.closed ==> Closing(s.coordinator) && !s.coordinator.CloseQueue?)
    && (s.coordinator.JoinWorkers? ==> s.aborted || s.closed)
    && (s.coordinator.Decide? || s.coordinator.CleanQueued? || Ending(s.coordinator) ==> s.closed)
    && s.accepted + Unrecorded(s.submissions) == |s.locs|
  }

  /** Everything has ended, but for what a failed cleanup left in the queue. */
  ghost predicate Over(s: State) {
    forall i | 0 <= i < |s.locs| :: s.locs[i].Ended? || (s.cleanupFailed && s.locs[i] == Queued)
  }

  ghost predicate WorkersInv(s: State) {
    && s.workers != map[]
    && (forall i | 0 <= i < |s.locs| && s.locs[i].HeldBy? && s.locs[i].holder.Worker? ::
          s.locs[i].holder.index in s.workers && s.workers[s.locs[i].holder.index] == Holding)
    && (forall i | 0 <= i < |s.locs| && s.locs[i] == HeldBy(Cleanup) :: s.coordinator.CleanQueued?)
    && (forall w | w in s.workers && s.workers[w] == Exited :: s.aborted || (s.closed && NoneAt(s, Queued)))
    && (Joined(s.coordinator) ==> forall w | w in s.workers :: s.workers[w] == Exited)
    && (Ending(s.coordinator) ==> Over(s))
  }

  ghost predicate TallyInv(s: State) {
    && s.succeeded == CountOf(s.locs, Ended(Succeeded)) && s.failed == CountOf(s.locs, Ended(Failed))
    && s.abandoned == CountOf(s.locs, Ended(Abandoned))
  }

  /** Without an abort, what is abandoned is what was interrupted. */
  ghost predicate InterruptedInv(s: State) {
    && (s.coordinator.CleanQueued? ==> s.aborted)
    && (forall id | id in s.interrupted :: id < |s.locs| && s.locs[id] == Ended(Abandoned))
    && (!s.aborted ==> s.abandoned == |s.interrupted| && !s.cleanupFailed)
  }

  ghost predicate CountsInv(s: State) {
    TallyInv(s) && InterruptedInv(s)
  }

  ghost predicate Inv(s: State) {
    AdmissionInv(s) && WorkersInv(s) && CountsInv(s)
  }

  /** What no step undoes: an ended occurrence stays as it ended. */
  ghost predicate Kept(s: State, s': State) {
    && |s.locs| <= |s'.locs|
    && (forall i | 0 <= i < |s.locs| && s.locs[i].Ended? :: s'.locs[i] == s.locs[i])
    && (s.aborted ==> s'.aborted) && (s.cleanupFailed ==> s'.cleanupFailed)
  }

  lemma InitInv(s: State)
    requires Init(s)
    ensures Inv(s)
  {
  }

  // ---------------------------------------------------------------------------------------
  // Ending an occurrence

  function StateOf(x: Action): Terminal
    requires x.Finalize? || x.CleanFinalize?
  {
    if x.Finalize? then x.state else Abandoned
  }

  predicate Marked(x: Action) {
    x.Finalize? && x.marked
  }

  /** What ending an occurrence changes. */
  ghost predicate EndsOne(s: State, x: Action, s': State)
    requires x.Finalize? || x.CleanFinalize?
  {
    && x.id < |s.locs| && s.locs[x.id].HeldBy? && s'.locs == s.locs[x.id := Ended(StateOf(x))]
    && s'.coordinator == s.coordinator && s'.aborted == s.aborted && s'.published == s.published && s'.closed == s.closed
    && s'.workers == s.workers && s'.submissions == s.submissions && s'.cleanupFailed == s.cleanupFailed
    && s'.succeeded == s.succeeded + (if StateOf(x).Succeeded? then 1 else 0)
    && s'.failed == s.failed + (if StateOf(x).Failed? then 1 else 0)
    && s'.abandoned == s.abandoned + (if StateOf(x).Abandoned? then 1 else 0)
    && s'.interrupted == (if Marked(x) then s.interrupted + {x.id} else s.interrupted)
    && (Marked(x) ==> StateOf(x).Abandoned?)
    && (StateOf(x).Abandoned? && !Marked(x) ==> s.aborted || s.coordinator.CleanQueued?)
  }

  lemma FinalizeShape(s: State, x: Action, s': State)
    requires x.Finalize? && Enabled(s, x) && s' == Apply(s, x)
    ensures EndsOne(s, x, s')
  {
    hide NoneAt;
  }

  lemma CleanShape(s: State, x: Action, s': State)
    requires x.CleanFinalize? && Enabled(s, x) && s' == Apply(s, x)
    ensures EndsOne(s, x, s')
  {
    hide NoneAt;
  }

  lemma EndingShape(s: State, x: Action, s': State)
    requires (x.Finalize? || x.CleanFinalize?) && Enabled(s, x) && s' == Apply(s, x)
    ensures EndsOne(s, x, s')
  {
    hide Enabled, Apply, EndsOne;
    if x.Finalize? {
      FinalizeShape(s, x, s');
    } else {
      CleanShape(s, x, s');
    }
  }

  // ---------------------------------------------------------------------------------------
  // Admission

  lemma SubmissionAdmission(s: State, x: Action, s': State)
    requires AdmissionInv(s) && (x.Register? || x.Push? || x.Record? || x.Unregister?)
    requires Enabled(s, x) && s' == Apply(s, x)
    ensures AdmissionInv(s')
  {
    hide NoneAt, Unrecorded;
    match x
    case Register(c) => UnrecordedUpdate(s.submissions, c, Pushing(0));
    case Push(c) => UnrecordedUpdate(s.submissions, c, Pushing(s.submissions[c].pushed + 1));
    case Record(c) => UnrecordedUpdate(s.submissions, c, Recorded);
    case Unregister(c) => UnrecordedWithout(s.submissions, c);
  }

  lemma SignalAdmission(s: State, x: Action, s': State)
    requires AdmissionInv(s) && (x.StopAdmission? || x.Abort? || x.PublishAbort? || x.ReceiveError? || x.CleanError?)
    requires Enabled(s, x) && s' == Apply(s, x)
    ensures AdmissionInv(s')
  {
    hide NoneAt, Unrecorded;
  }

  lemma WorkerAdmission(s: State, x: Action, s': State)
    requires AdmissionInv(s)
    requires x.Take? || x.CleanTake? || x.Finalize? || x.CleanFinalize? || x.Resume? || x.ExitClosed? || x.ExitAborted?
    requires Enabled(s, x) && s' == Apply(s, x)
    ensures AdmissionInv(s')
  {
    hide NoneAt, Unrecorded;
  }

  lemma CoordinatorAdmission(s: State, s': State)
    requires AdmissionInv(s) && Enabled(s, Coordinate) && s' == Apply(s, Coordinate)
    ensures AdmissionInv(s')
  {
    hide NoneAt, Unrecorded;
  }

  // ---------------------------------------------------------------------------------------
  // Workers

  lemma SubmissionWorkers(s: State, x: Action, s': State)
    requires AdmissionInv(s) && WorkersInv(s) && (x.Register? || x.Push? || x.Record? || x.Unregister?)
    requires Enabled(s, x) && s' == Apply(s, x)
    ensures WorkersInv(s') && Kept(s, s')
  {
    hide Unrecorded;
    if x.Push? {
      assert !Closing(s.coordinator);
    }
  }

  lemma TakeWorkers(s: State, x: Action, s': State)
    requires WorkersInv(s) && (x.Take? || x.CleanTake?) && Enabled(s, x) && s' == Apply(s, x)
    ensures WorkersInv(s') && Kept(s, s')
  {
    assert !Ending(s.coordinator);
  }

  /** One held occurrence ends. */
  lemma EndedWorkers(s: State, id: nat, state: Terminal, s': State)
    requires WorkersInv(s) && id < |s.locs| && s.locs[id].HeldBy? && s'.locs == s.locs[id := Ended(state)]
    requires s'.workers == s.workers && s'.coordinator == s.coordinator && s'.aborted == s.aborted && s'.closed == s.closed
    requires s'.cleanupFailed == s.cleanupFailed
    ensures WorkersInv(s') && Kept(s, s')
  {
    hide Joined, Ending;
  }

  lemma FinalizeWorkers(s: State, x: Action, s': State)
    requires WorkersInv(s) && (x.Finalize? || x.CleanFinalize?) && Enabled(s, x) && s' == Apply(s, x)
    ensures WorkersInv(s') && Kept(s, s')
  {
    hide WorkersInv, Kept, Enabled, Apply;
    EndingShape(s, x, s');
    EndedWorkers(s, x.id, StateOf(x), s');
  }

  lemma ExitWorkers(s: State, x: Action, s': State)
    requires WorkersInv(s) && (x.Resume? || x.ExitClosed? || x.ExitAborted? || x.ReceiveError?)
    requires Enabled(s, x) && s' == Apply(s, x)
    ensures WorkersInv(s') && Kept(s, s')
  {
  }

  lemma SignalWorkers(s: State, x: Action, s': State)
    requires WorkersInv(s) && (x.StopAdmission? || x.Abort? || x.PublishAbort?)
    requires Enabled(s, x) && s' == Apply(s, x)
    ensures WorkersInv(s') && Kept(s, s')
  {
  }

  /** When the coordinator decides without an abort, or has cleaned up, everything has ended. */
  lemma DecideEnded(s: State)
    requires WorkersInv(s) && CoordinatorReady(s)
    ensures s.coordinator.CleanQueued? || (s.coordinator.Decide? && !s.aborted) ==>
      forall i | 0 <= i < |s.locs| :: s.locs[i].Ended?
  {
    if s.coordinator.Decide? && !s.aborted {
      var w :| w in s.workers;
      assert s.workers[w] == Exited;
    }
  }

  /** The coordinator moves on, and the queue may close. */
  lemma MovedWorkers(s: State, s': State)
    requires WorkersInv(s) && s'.locs == s.locs && s'.workers == s.workers && s'.aborted == s.aborted
    requires (s.closed ==> s'.closed) && (s.cleanupFailed ==> s'.cleanupFailed)
    requires s.coordinator.CleanQueued? ==> NoneAt(s, HeldBy(Cleanup))
    requires Joined(s'.coordinator) ==> forall w | w in s.workers :: s.workers[w] == Exited
    requires Ending(s'.coordinator) ==> Over(s')
    ensures WorkersInv(s') && Kept(s, s')
  {
    hide Joined, Ending;
  }

  lemma CoordinatorWorkers(s: State, s': State)
    requires WorkersInv(s) && Enabled(s, Coordinate) && s' == Apply(s, Coordinate)
    ensures WorkersInv(s') && Kept(s, s')
  {
    DecideEnded(s);
    assert Joined(s.coordinator) ==> forall w | w in s.workers :: s.workers[w] == Exited;
    assert Ending(s.coordinator) ==> Over(s);
    hide WorkersInv, Kept, NoneAt;
    MovedWorkers(s, s');
  }

  /** A failed cleanup holds nothing itself, and the workers have left. */
  lemma ErrorWorkers(s: State, s': State)
    requires WorkersInv(s) && Enabled(s, CleanError) && s' == Apply(s, CleanError)
    ensures WorkersInv(s') && Kept(s, s')
  {
    forall i | 0 <= i < |s.locs| ensures s.locs[i].Ended? || s.locs[i] == Queued {
      match s.locs[i] case Queued => case HeldBy(holder) => case Ended(_) =>
    }
    assert Joined(s.coordinator);
    MovedWorkers(s, s');
  }

  lemma StepWorkers(s: State, x: Action, s': State)
    requires AdmissionInv(s) && WorkersInv(s) && Enabled(s, x) && s' == Apply(s, x)
    ensures WorkersInv(s') && Kept(s, s')
  {
    hide AdmissionInv, WorkersInv, Kept, Enabled, Apply;
    match x
    case Register(_) => SubmissionWorkers(s, x, s');
    case Push(_) => SubmissionWorkers(s, x, s');
    case Record(_) => SubmissionWorkers(s, x, s');
    case Unregister(_) => SubmissionWorkers(s, x, s');
    case Take(_, _) => TakeWorkers(s, x, s');
    case CleanTake(_) => TakeWorkers(s, x, s');
    case Finalize(_, _, _, _) => FinalizeWorkers(s, x, s');
    case CleanFinalize(_) => FinalizeWorkers(s, x, s');
    case Coordinate => CoordinatorWorkers(s, s');
    case CleanError => ErrorWorkers(s, s');
    case StopAdmission => SignalWorkers(s, x, s');
    case Abort => SignalWorkers(s, x, s');
    case PublishAbort => SignalWorkers(s, x, s');
    case _ => ExitWorkers(s, x, s');
  }

  // ---------------------------------------------------------------------------------------
  // Counts

  lemma Recounted(locs: seq<Loc>, id: nat, to: Loc)
    requires id < |locs| && !locs[id].Ended?
    ensures forall state: Terminal ::
      CountOf(locs[id := to], Ended(state)) == CountOf(locs, Ended(state)) + if to == Ended(state) then 1 else 0
  {
    forall state: Terminal
      ensures CountOf(locs[id := to], Ended(state)) == CountOf(locs, Ended(state)) + if to == Ended(state) then 1 else 0
    {
      CountUpdate(locs, id, to, Ended(state));
    }
  }

  lemma MovingCounts(s: State, x: Action, s': State)
    requires CountsInv(s) && (x.Push? || x.Take? || x.CleanTake?) && Enabled(s, x) && s' == Apply(s, x)
    ensures CountsInv(s')
  {
    hide NoneAt, CountOf;
    match x
    case Push(_) =>
      CountPush(s.locs, Queued, Ended(Succeeded));
      CountPush(s.locs, Queued, Ended(Failed));
      CountPush(s.locs, Queued, Ended(Abandoned));
    case Take(w, id) => Recounted(s.locs, id, HeldBy(Worker(w)));
    case CleanTake(id) => Recounted(s.locs, id, HeldBy(Cleanup));
  }

  lemma EndingTally(s: State, x: Action, s': State)
    requires TallyInv(s) && (x.Finalize? || x.CleanFinalize?) && Enabled(s, x) && s' == Apply(s, x)
    ensures TallyInv(s')
  {
    hide CountOf, Enabled, Apply;
    EndingShape(s, x, s');
    Recounted(s.locs, x.id, Ended(StateOf(x)));
  }

  lemma EndingInterrupted(s: State, x: Action, s': State)
    requires InterruptedInv(s) && (x.Finalize? || x.CleanFinalize?) && Enabled(s, x) && s' == Apply(s, x)
    ensures InterruptedInv(s')
  {
    hide Enabled, Apply;
    EndingShape(s, x, s');
    assert x.id !in s.interrupted;
  }

  lemma QuietCounts(s: State, x: Action, s': State)
    requires CountsInv(s) && Enabled(s, x) && s' == Apply(s, x)
    requires !(x.Push? || x.Take? || x.CleanTake? || x.Finalize? || x.CleanFinalize? || x.Coordinate?)
    ensures CountsInv(s')
  {
    hide NoneAt, CountOf, CoordinatorReady;
  }

  lemma CoordinatorCounts(s: State, s': State)
    requires CountsInv(s) && Enabled(s, Coordinate) && s' == Apply(s, Coordinate)
    ensures CountsInv(s')
  {
    hide CountOf, CoordinatorReady;
  }

  lemma StepCounts(s: State, x: Action, s': State)
    requires CountsInv(s) && Enabled(s, x) && s' == Apply(s, x)
    ensures CountsInv(s')
  {
    hide TallyInv, InterruptedInv, Enabled, Apply;
    if x.Push? || x.Take? || x.CleanTake? {
      MovingCounts(s, x, s');
    } else if x.Finalize? || x.CleanFinalize? {
      EndingTally(s, x, s');
      EndingInterrupted(s, x, s');
    } else if x.Coordinate? {
      CoordinatorCounts(s, s');
    } else {
      QuietCounts(s, x, s');
    }
  }

  // ---------------------------------------------------------------------------------------
  // Whole runs

  lemma StepInv(s: State, x: Action, s': State)
    requires Inv(s) && Enabled(s, x) && s' == Apply(s, x)
    ensures Inv(s') && Kept(s, s')
  {
    hide AdmissionInv, WorkersInv, CountsInv, Enabled, Apply, Kept;
    if x.Register? || x.Push? || x.Record? || x.Unregister? {
      SubmissionAdmission(s, x, s');
    } else if x.Coordinate? {
      CoordinatorAdmission(s, s');
    } else if x.StopAdmission? || x.Abort? || x.PublishAbort? || x.ReceiveError? || x.CleanError? {
      SignalAdmission(s, x, s');
    } else {
      WorkerAdmission(s, x, s');
    }
    StepWorkers(s, x, s');
    StepCounts(s, x, s');
  }

  lemma {:induction false} RunInv(run: seq<State>, i: nat)
    requires Run(run) && i < |run|
    ensures Inv(run[i])
  {
    hide Inv, Init, Enabled, Apply;
    if i == 0 {
      InitInv(run[0]);
    } else {
      RunInv(run, i - 1);
      assert Next(run[i - 1], run[i - 1 + 1]);
      var x :| Enabled(run[i - 1], x) && run[i] == Apply(run[i - 1], x);
      StepInv(run[i - 1], x, run[i]);
    }
  }

  lemma {:induction false} RunKept(run: seq<State>, i: nat, j: nat)
    requires Run(run) && i <= j < |run|
    ensures Kept(run[i], run[j])
  {
    hide Inv, Init, Enabled, Apply;
    if i < j {
      RunKept(run, i, j - 1);
      RunInv(run, j - 1);
      assert Next(run[j - 1], run[j - 1 + 1]);
      var x :| Enabled(run[j - 1], x) && run[j] == Apply(run[j - 1], x);
      StepInv(run[j - 1], x, run[j]);
    }
  }

  /** Exactly once: an occurrence that has ended is never ended again, and keeps its outcome. */
  lemma EndsOnce(run: seq<State>, i: nat, j: nat, id: nat)
    requires Run(run) && i <= j < |run| && id < |run[i].locs| && run[i].locs[id].Ended?
    ensures id < |run[j].locs| && run[j].locs[id] == run[i].locs[id]
  {
    RunKept(run, i, j);
  }

  /** Conservation: when the runner is done, every accepted occurrence has ended, or a failed cleanup has
      left it in the queue. Each count is the number of occurrences that ended that way, and the counts and what
      is left add up to what was accepted. If the cleanup did not fail nothing is left. Without an abort, exactly
      as many occurrences as a handler reported interrupted were abandoned. */
  lemma Conservation(run: seq<State>, i: nat)
    requires Run(run) && i < |run| && run[i].coordinator.Completed?
    ensures
      var s := run[i];
      s.accepted == |s.locs| == s.succeeded + s.failed + s.abandoned + CountOf(s.locs, Queued)
    ensures
      var s := run[i];
      && s.succeeded == CountOf(s.locs, Ended(Succeeded)) && s.failed == CountOf(s.locs, Ended(Failed))
      && s.abandoned == CountOf(s.locs, Ended(Abandoned))
    ensures !run[i].cleanupFailed ==> CountOf(run[i].locs, Queued) == 0
    ensures CountOf(run[i].locs, Queued) == 0 <==> forall id | 0 <= id < |run[i].locs| :: run[i].locs[id].Ended?
    ensures !run[i].aborted ==> !run[i].cleanupFailed && run[i].abandoned == |run[i].interrupted|
    ensures !run[i].aborted ==> (run[i].abandoned > 0 <==> run[i].interrupted != {})
  {
    RunInv(run, i);
    AllEnded(run[i].locs);
  }

  /** The runner has been told to end, and its coordinator is under way. */
  predicate Told(s: State) {
    s.stopped && !s.coordinator.NotStarted?
  }

  lemma StepTold(s: State, x: Action, s': State)
    requires Enabled(s, x) && s' == Apply(s, x) && (s.aborted ==> Told(s))
    ensures (Told(s) ==> Told(s')) && (s'.aborted ==> Told(s')) && (s.aborted ==> s'.aborted)
    ensures x.StopAdmission? || (x.Abort? && !s.coordinator.Completed?) ==> Told(s')
    ensures x.Abort? && !s.coordinator.Completed? ==> s'.aborted
  {
    hide CoordinatorReady, NoneAt;
    if x.Coordinate? {
      assert !s.coordinator.NotStarted? by { CoordinatorUp(s); }
    }
  }

  lemma CoordinatorUp(s: State)
    requires CoordinatorReady(s)
    ensures !s.coordinator.NotStarted?
  {
  }

  lemma {:induction false} RunTold(run: seq<State>, i: nat, j: nat)
    requires Run(run) && i <= j < |run|
    ensures (Told(run[i]) ==> Told(run[j])) && (run[j].aborted ==> Told(run[j])) && (run[i].aborted ==> run[j].aborted)
  {
    hide Told, Enabled, Apply;
    if j == 0 {
      NotToldFirst(run[0]);
    } else {
      RunTold(run, if i < j then i else j - 1, j - 1);
      assert Next(run[j - 1], run[j - 1 + 1]);
      var x :| Enabled(run[j - 1], x) && run[j] == Apply(run[j - 1], x);
      StepTold(run[j - 1], x, run[j]);
    }
  }

  lemma NotToldFirst(s: State)
    requires Init(s)
    ensures !s.aborted
  {
  }

  /** A stop or an abort is for good: from then on no submission is admitted, the coordinator is under way, and an
      abort that comes before the runner is done is never forgotten. */
  lemma StopsForGood(run: seq<State>, i: nat, j: nat, x: Action)
    requires Run(run) && i < j < |run| && (x.StopAdmission? || x.Abort?) && !run[i].coordinator.Completed?
    requires Enabled(run[i], x) && run[i + 1] == Apply(run[i], x)
    ensures Told(run[j]) && (x.Abort? ==> run[j].aborted) && (forall c :: !Enabled(run[j], Register(c)))
  {
    hide Run, Apply;
    RunTold(run, i, i);
    StepTold(run[i], x, run[i + 1]);
    RunTold(run, i + 1, j);
  }

  /** No admitted push ever meets a queue its own runner has closed. */
  lemma AdmittedPushesOpen(run: seq<State>, i: nat, c: nat)
    requires Run(run) && i < |run| && c in run[i].submissions
    ensures !run[i].closed
  {
    RunInv(run, i);
  }

  /** The final summary is stable: nothing moves after completion but signals that change no count. */
  lemma {:induction false} SummaryStable(run: seq<State>, i: nat, j: nat)
    requires Run(run) && i <= j < |run| && run[i].coordinator.Completed?
    ensures run[j].coordinator.Completed? && run[j].accepted == run[i].accepted && run[j].aborted == run[i].aborted
    ensures run[j].succeeded == run[i].succeeded && run[j].failed == run[i].failed && run[j].abandoned == run[i].abandoned
  {
    hide Inv, Init, Enabled, Apply;
    if i < j {
      SummaryStable(run, i, j - 1);
      RunInv(run, j - 1);
      assert Next(run[j - 1], run[j - 1 + 1]);
      var x :| Enabled(run[j - 1], x) && run[j] == Apply(run[j - 1], x);
      CompletedStep(run[j - 1], x, run[j]);
    }
  }

  lemma CompletedStep(s: State, x: Action, s': State)
    requires Inv(s) && s.coordinator.Completed? && Enabled(s, x) && s' == Apply(s, x)
    ensures s'.coordinator.Completed? && s'.accepted == s.accepted && s'.aborted == s.aborted
    ensures s'.succeeded == s.succeeded && s'.failed == s.failed && s'.abandoned == s.abandoned
  {
    hide CountsInv, Unrecorded;
  }
}
