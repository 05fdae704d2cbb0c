/** Once it is asked to stop, the runner ends: until it is done some step of its own is enabled, and every
    such step brings it closer to done, whatever the schedule. */
module RunnerProgress {
  import opened RunnerRetry
  import opened RunnerLifecycle
  import opened RunnerTheorems

  /** The runner's own steps: what admitted submissions, workers, an abort under way and the coordinator
      still have to do. Nothing new comes in from outside. */
  ghost predicate Forward(s: State, x: Action) {
    && Enabled(s, x)
    && match x
       case Register(_) => false
       case Push(_) => false
       case StopAdmission => false
       case Abort => false
       case ReceiveError(_) => false
       case CleanError => false
       case PublishAbort => !s.published
       case _ => true
  }

  // ---------------------------------------------------------------------------------------
  // How far from done

  function Weight(loc: Loc): nat {
    match loc case Queued => 3 case HeldBy(_) => 1 case Ended(_) => 0
  }

  function Load(locs: seq<Loc>): nat {
    if locs == [] then 0 else Load(locs[..|locs| - 1]) + Weight(locs[|locs| - 1])
  }

  lemma {:induction false} LoadUpdate(locs: seq<Loc>, i: nat, to: Loc)
    requires i < |locs|
    ensures Load(locs[i := to]) + Weight(locs[i]) == Load(locs) + Weight(to)
  {
    var n := |locs| - 1;
    if i == n {
      assert locs[i := to][..n] == locs[..n];
    } else {
      LoadUpdate(locs[..n], i, to);
      assert locs[i := to][..n] == locs[..n][i := to] && locs[i := to][n] == locs[n];
    }
  }

  function Unrecordeds(s: State): set<nat> {
    set c | c in s.submissions && s.submissions[c].Pushing?
  }

  function Live(s: State): set<nat> {
    set w | w in s.workers && s.workers[w] != Exited
  }

  function Busy(s: State): set<nat> {
    set w | w in s.workers && s.workers[w] == Holding
  }

  function Ahead(c: Coordinator): nat {
    match c
    case NotStarted => 8
    case AwaitAdmissions => 7
    case CloseQueue => 6
    case JoinWorkers => 5
    case CloseAfterJoin => 4
    case Decide => 3
    case CleanQueued => 2
    case Publish => 1
    case Completed => 0
  }

  function Rank(s: State): nat {
    Load(s.locs) + |Unrecordeds(s)| + |s.submissions.Keys| + |Live(s)| + |Busy(s)| + Ahead(s.coordinator)
    + if s.published then 0 else 1
  }

  lemma SetWithout(a: set<nat>, b: set<nat>, x: nat)
    requires x in a && forall y :: y in b <==> y in a && y != x
    ensures |b| == |a| - 1
  {
    assert b == a - {x};
  }

  lemma SetAtMostOneMore(a: set<nat>, b: set<nat>, x: nat)
    requires forall y :: y in b <==> y in a || y == x
    ensures |b| <= |a| + 1
  {
    assert b == a + {x};
  }

  lemma SubmissionLowers(s: State, x: Action, s': State)
    requires Forward(s, x) && (x.Record? || x.Unregister?) && s' == Apply(s, x)
    ensures Rank(s') < Rank(s)
  {
    hide Load, NoneAt;
    assert Live(s') == Live(s) && Busy(s') == Busy(s);
    if x.Record? {
      assert s'.submissions.Keys == s.submissions.Keys;
      SetWithout(Unrecordeds(s), Unrecordeds(s'), x.c);
    } else {
      assert Unrecordeds(s') == Unrecordeds(s);
      SetWithout(s.submissions.Keys, s'.submissions.Keys, x.c);
    }
  }

  lemma TakeLowers(s: State, x: Action, s': State)
    requires Forward(s, x) && x.Take? && s' == Apply(s, x)
    ensures Rank(s') < Rank(s)
  {
    hide Load, NoneAt;
    LoadUpdate(s.locs, x.id, HeldBy(Worker(x.w)));
    assert Live(s') == Live(s) && Unrecordeds(s') == Unrecordeds(s);
    SetAtMostOneMore(Busy(s), Busy(s'), x.w);
  }

  lemma EndLowers(s: State, x: Action, s': State)
    requires Forward(s, x) && (x.Finalize? || x.CleanFinalize?) && s' == Apply(s, x)
    ensures Rank(s') < Rank(s)
  {
    hide Load, Enabled, Apply;
    EndingShape(s, x, s');
    LoadUpdate(s.locs, x.id, Ended(StateOf(x)));
    assert Live(s') == Live(s) && Busy(s') == Busy(s) && Unrecordeds(s') == Unrecordeds(s);
  }

  lemma CleanTakeLowers(s: State, x: Action, s': State)
    requires Forward(s, x) && x.CleanTake? && s' == Apply(s, x)
    ensures Rank(s') < Rank(s)
  {
    hide Load, NoneAt;
    LoadUpdate(s.locs, x.id, HeldBy(Cleanup));
    assert Live(s') == Live(s) && Busy(s') == Busy(s) && Unrecordeds(s') == Unrecordeds(s);
  }

  lemma WorkerLowers(s: State, x: Action, s': State)
    requires Forward(s, x) && (x.Resume? || x.ExitClosed? || x.ExitAborted?) && s' == Apply(s, x)
    ensures Rank(s') < Rank(s)
  {
    hide Load, NoneAt;
    assert Unrecordeds(s') == Unrecordeds(s);
    if x.Resume? {
      assert Live(s') == Live(s);
      SetWithout(Busy(s), Busy(s'), x.w);
    } else {
      assert Busy(s') == Busy(s);
      SetWithout(Live(s), Live(s'), x.w);
    }
  }

  lemma CoordinatorLowers(s: State, x: Action, s': State)
    requires Forward(s, x) && (x.Coordinate? || x.PublishAbort?) && s' == Apply(s, x)
    ensures Rank(s') < Rank(s)
  {
    hide Load;
    assert Live(s') == Live(s) && Busy(s') == Busy(s) && Unrecordeds(s') == Unrecordeds(s);
  }

  /** Every step of the runner's own brings it closer to done. */
  lemma ForwardLowers(s: State, x: Action, s': State)
    requires Forward(s, x) && s' == Apply(s, x)
    ensures Rank(s') < Rank(s)
  {
    hide Rank, Apply, Enabled;
    match x
    case Record(_) => SubmissionLowers(s, x, s');
    case Unregister(_) => SubmissionLowers(s, x, s');
    case Take(_, _) => TakeLowers(s, x, s');
    case Finalize(_, _, _, _) => EndLowers(s, x, s');
    case CleanFinalize(_) => EndLowers(s, x, s');
    case CleanTake(_) => CleanTakeLowers(s, x, s');
    case Coordinate => CoordinatorLowers(s, x, s');
    case PublishAbort => CoordinatorLowers(s, x, s');
    case _ => WorkerLowers(s, x, s');
  }

  // ---------------------------------------------------------------------------------------
  // Never stuck

  lemma SubmissionMoves(s: State) returns (x: Action)
    requires s.submissions != map[]
    ensures Forward(s, x)
  {
    var c :| c in s.submissions;
    x := if s.submissions[c].Pushing? then Record(c) else Unregister(c);
  }

  lemma WorkerMoves(s: State, w: nat) returns (x: Action)
    requires w in s.workers && s.workers[w] != Exited && (s.aborted || s.closed)
    ensures Forward(s, x)
  {
    if s.workers[w] == Holding {
      if NoneAt(s, HeldBy(Worker(w))) {
        x := Resume(w);
      } else {
        var id :| 0 <= id < |s.locs| && s.locs[id] == HeldBy(Worker(w));
        x := Finalize(w, id, Succeeded, false);
      }
    } else if s.aborted {
      x := ExitAborted(w);
    } else if NoneAt(s, Queued) {
      x := ExitClosed(w);
    } else {
      var id :| 0 <= id < |s.locs| && s.locs[id] == Queued;
      x := Take(w, id);
    }
  }

  lemma CleanupMoves(s: State) returns (x: Action)
    requires s.coordinator.CleanQueued? && s.closed
    ensures Forward(s, x)
  {
    if !NoneAt(s, Queued) {
      var id :| 0 <= id < |s.locs| && s.locs[id] == Queued;
      x := CleanTake(id);
    } else if !NoneAt(s, HeldBy(Cleanup)) {
      var id :| 0 <= id < |s.locs| && s.locs[id] == HeldBy(Cleanup);
      x := CleanFinalize(id);
    } else {
      x := Coordinate;
    }
  }

  /** Until the runner is done, one of its own steps is enabled. */
  lemma ForwardEnabled(s: State) returns (x: Action)
    requires AdmissionInv(s) && !s.coordinator.NotStarted? && !s.coordinator.Completed?
    ensures Forward(s, x)
  {
    hide Unrecorded;
    if s.aborted && !s.published {
      x := PublishAbort;
    } else if s.coordinator.AwaitAdmissions? && s.submissions != map[] {
      x := SubmissionMoves(s);
    } else if s.coordinator.JoinWorkers? && exists w :: w in s.workers && s.workers[w] != Exited {
      var w :| w in s.workers && s.workers[w] != Exited;
      x := WorkerMoves(s, w);
    } else if s.coordinator.CleanQueued? {
      x := CleanupMoves(s);
    } else {
      x := Coordinate;
    }
  }

  lemma Extended(run: seq<State>, x: Action)
    requires Run(run) && Enabled(run[|run| - 1], x)
    ensures Run(run + [Apply(run[|run| - 1], x)])
  {
    hide Init, Enabled, Apply;
    var run' := run + [Apply(run[|run| - 1], x)];
    assert Next(run'[|run| - 1], run'[|run|]);
    forall i | 0 <= i < |run'| - 1 ensures Next(run'[i], run'[i + 1]) {
      if i < |run| - 1 {
        assert Next(run[i], run[i + 1]);
      }
    }
  }

  /** From every state of every run in which a stop or an abort has been asked for, the runner's own steps
      lead to completion, and any choice of them does within `Rank` steps. */
  lemma {:induction false} Completes(run: seq<State>) returns (run': seq<State>)
    requires Run(run) && !run[|run| - 1].coordinator.NotStarted?
    ensures Run(run') && run <= run' && run'[|run'| - 1].coordinator.Completed?
    ensures |run'| <= |run| + Rank(run[|run| - 1])
    decreases Rank(run[|run| - 1])
  {
    hide Rank, Forward, Apply, Init, CountsInv, WorkersInv, AdmissionInv;
    var s := run[|run| - 1];
    run' := run;
    if !s.coordinator.Completed? {
      RunInv(run, |run| - 1);
      var x := ForwardEnabled(s);
      ForwardIs(s, x);
      Extended(run, x);
      ForwardLowers(s, x, Apply(s, x));
      run' := Completes(run + [Apply(s, x)]);
    }
  }

  lemma ForwardIs(s: State, x: Action)
    requires Forward(s, x) && !s.coordinator.NotStarted?
    ensures Enabled(s, x) && !Apply(s, x).coordinator.NotStarted?
  {
  }

  // ---------------------------------------------------------------------------------------
  // An abandoned occurrence without an abort

  /** One worker with nothing to do yet, and one occurrence. */
  function OneQueued(): State {
    State(false, false, false, false, map[], map[0 := Polling], NotStarted, [Queued], 1, 0, 0, 0, {}, false)
  }

  function OneInterrupted(): State {
    OneQueued().(locs := [Ended(Abandoned)], abandoned := 1, interrupted := {0})
  }

  lemma Queues() returns (run: seq<State>)
    ensures Run(run) && run[|run| - 1] == OneQueued()
  {
    hide Next;
    var s := OneQueued().(locs := [], accepted := 0);
    assert 0 in s.workers;
    run := [s];
    run := Does(run, Register(0));
    run := Does(run, Push(0));
    run := Does(run, Record(0));
    run := Does(run, Unregister(0));
    assert run[|run| - 1].submissions == map[];
  }

  lemma Interrupts() returns (run: seq<State>)
    ensures Run(run) && run[|run| - 1] == OneInterrupted()
  {
    hide Next, Init;
    run := Queues();
    run := Does(run, Take(0, 0));
    run := Does(run, Finalize(0, 0, Abandoned, true));
    run := Does(run, Resume(0));
    var s := run[|run| - 1];
    assert s.workers == map[0 := Polling] && s.locs == [Ended(Abandoned)] && s.interrupted == {0};
  }

  /** A run that completes without an abort and abandons an occurrence, because its handler reported that a
      peer's cancelled context interrupted it. */
  lemma InterruptedRun() returns (run: seq<State>)
    ensures Run(run) && run[|run| - 1].coordinator.Completed? && !run[|run| - 1].aborted
    ensures run[|run| - 1].accepted == run[|run| - 1].abandoned == 1 && run[|run| - 1].interrupted == {0}
  {
    hide Next, Init;
    run := Interrupts();
    run := Does(run, StopAdmission);
    run := Does(run, Coordinate);
    run := Does(run, Coordinate);
    run := Does(run, ExitClosed(0));
    assert run[|run| - 1].workers == map[0 := Exited];
    run := Does(run, Coordinate);
    run := Does(run, Coordinate);
    run := Does(run, Coordinate);
    run := Does(run, Coordinate);
  }

  lemma Does(run: seq<State>, x: Action) returns (run': seq<State>)
    requires Run(run) && Enabled(run[|run| - 1], x)
    ensures Run(run') && |run'| > 0 && run'[|run'| - 1] == Apply(run[|run| - 1], x)
  {
    Extended(run, x);
    run' := run + [Apply(run[|run| - 1], x)];
  }
}
