/** What the calls of a wait side are told, against what they did: nothing that is taken is lost. */
module WakeResults {
  import opened WakeProtocol
  import opened WakeTheorems
  import opened WakePromises

  ghost function Sum(amounts: map<nat, nat>): nat
    decreases |amounts|
  {
    if amounts == map[] then 0
    else
      var t :| t in amounts;
      amounts[t] + Sum(amounts - {t})
  }

  lemma {:induction false} SumWithout(amounts: map<nat, nat>, t: nat)
    requires t in amounts
    ensures Sum(amounts) == amounts[t] + Sum(amounts - {t})
    decreases |amounts|
  {
    var u :| u in amounts && Sum(amounts) == amounts[u] + Sum(amounts - {u});
    if u != t {
      SumWithout(amounts - {u}, t);
      SumWithout(amounts - {t}, u);
      assert amounts - {u} - {t} == amounts - {t} - {u};
    }
  }

  lemma SumUpdate(amounts: map<nat, nat>, t: nat, amount: nat)
    ensures Sum(amounts[t := amount]) + (if t in amounts then amounts[t] else 0) == Sum(amounts) + amount
  {
    var after := amounts[t := amount];
    SumWithout(after, t);
    assert after - {t} == amounts - {t};
    if t in amounts {
      SumWithout(amounts, t);
    } else {
      assert amounts - {t} == amounts;
    }
  }

  /** What a call has been told, or is on its way to be told. */
  datatype Told = Nothing | Receipt | Cancellation | ClosureCheck | Closure

  function ToldNext(next: Then): Told {
    match next
    case Took => Receipt
    case Cancel => Cancellation
    case ToDrain => Closure
    case ToCloseCheck => ClosureCheck
    case Pushed => Nothing
  }

  function ToldResult(result: Result): Told {
    match result
    case Received => Receipt
    case Canceled => Cancellation
    case Stopped => Cancellation
    case Ended => Closure
    case Refused => Closure
    case Closed => Closure
  }

  function ToldAt(pc: PC): Told {
    match pc
    case Returned(result) => ToldResult(result)
    case CloseCheck => ClosureCheck
    case Drain => Closure
    case CloseDone => Closure
    case Leave(next) => ToldNext(next)
    case QuitLock(_, next) => ToldNext(next)
    case QuitHeld(_, next) => ToldNext(next)
    case QuitCount(_, next) => ToldNext(next)
    case AwaitToken(next) => ToldNext(next)
    case Recheck(next) => ToldNext(next)
    case Clean(_, _, next) => ToldNext(next)
    case Wake(_, next) => ToldNext(next)
    case WakeHeld(_, next) => ToldNext(next)
    case Send(_, next) => ToldNext(next)
    case SendTo(_, _, next) => ToldNext(next)
    case _ => Nothing
  }

  ghost predicate CallResult(s: Side, t: nat)
    requires t in s.calls
  {
    && (ToldAt(s.calls[t]) == Receipt <==> s.log.Of(t) > 0)
    && (ToldAt(s.calls[t]) in {Cancellation, ClosureCheck} ==> t in s.log.quit)
    && (ToldAt(s.calls[t]) == Closure ==> s.closed)
  }

  ghost predicate ResultInv(s: Side) {
    && s.log.taken.Keys == s.calls.Keys
    && (forall t | t in s.calls :: CallResult(s, t))
    && s.acquired == s.log.received + Sum(s.log.taken)
  }

  /** A step of call `t` that takes nothing, and tells it nothing new unless the side is closed. */
  ghost predicate Tells(s: Side, t: nat, s': Side) {
    && t in s.calls && t in s'.calls && s'.calls == s.calls[t := s'.calls[t]] && Quiet(s, s')
    && (s'.calls[t] != Panicked ==> Onward(s.calls[t], s'.calls[t], s'.closed))
  }

  ghost predicate Quiet(s: Side, s': Side) {
    s'.log == s.log && s'.acquired == s.acquired && (s.closed ==> s'.closed)
  }

  predicate Onward(pc: PC, pc': PC, closed: bool) {
    || ToldAt(pc') == ToldAt(pc)
    || (ToldAt(pc) != Receipt && ToldAt(pc') == Closure && closed)
    || (ToldAt(pc) == ClosureCheck && ToldAt(pc') == Cancellation && !closed)
  }

  lemma ResumeTold(next: Then)
    ensures ToldAt(Resume(next)) == ToldNext(next)
  {
  }

  lemma TakerTells(s: Side, t: nat, pc: PC, a: nat, s': Side)
    requires t in s.calls && s.calls[t] == pc && TakerPC(pc) && s' == TakerStep(s, t, pc, a)
    ensures Tells(s, t, s')
  {
    hide Without, Resume, ToldNext, ToldResult;
    if pc.QuitCount? {
      ResumeTold(pc.next);
    }
    assert s'.calls == s.calls[t := s'.calls[t]] && Quiet(s, s') by { hide ToldAt, Onward; }
    hide Quiet;
    TakerOnward(s, t, pc, a);
  }

  lemma TakerOnward(s: Side, t: nat, pc: PC, a: nat)
    requires TakerPC(pc)
    ensures t in TakerStep(s, t, pc, a).calls
    ensures TakerStep(s, t, pc, a).calls[t] != Panicked ==>
              Onward(pc, TakerStep(s, t, pc, a).calls[t], TakerStep(s, t, pc, a).closed)
  {
    hide TakerStep, ToldAt;
    if pc.QuitLock? || pc.QuitHeld? || pc.QuitCount? || pc.AwaitToken? || pc.Leave? {
      QuitOnward(s, t, pc, a);
    } else {
      EnlistOnward(s, t, pc, a);
    }
  }

  lemma QuitOnward(s: Side, t: nat, pc: PC, a: nat)
    requires pc.QuitLock? || pc.QuitHeld? || pc.QuitCount? || pc.AwaitToken? || pc.Leave?
    ensures t in TakerStep(s, t, pc, a).calls
    ensures TakerStep(s, t, pc, a).calls[t] != Panicked ==> ToldAt(TakerStep(s, t, pc, a).calls[t]) == ToldAt(pc)
  {
    hide Without, Resume, ToldNext, ToldResult;
    ResumeTold(pc.next);
  }

  lemma EnlistOnward(s: Side, t: nat, pc: PC, a: nat)
    requires pc.EnlistLock? || pc.EnlistHeld? || pc.EnlistLink? || pc.CloseCheck?
    ensures t in TakerStep(s, t, pc, a).calls
    ensures TakerStep(s, t, pc, a).calls[t] != Panicked ==>
              Onward(pc, TakerStep(s, t, pc, a).calls[t], TakerStep(s, t, pc, a).closed)
  {
    hide Without, Resume;
  }

  lemma CleanTold(s: Side, pollers: nat, parked: nat, next: Then, a: nat)
    requires s.batch > 0
    ensures ToldAt(AfterClean(s, pollers, parked, next, a)) == ToldNext(next)
  {
    hide Target, Resume;
    ResumeTold(next);
  }

  lemma WakeTells(s: Side, t: nat, pc: PC, a: nat, s': Side)
    requires s.batch > 0 && t in s.calls && s.calls[t] == pc && WakePC(pc) && s' == WakeStep(s, t, pc, a)
    ensures Tells(s, t, s')
  {
    WakeQuiet(s, t, pc, a, s');
    hide Quiet, WakeStep, ToldAt;
    if pc.Recheck? || pc.Clean? || pc.Wake? {
      CleanOnward(s, t, pc, a);
    } else {
      SendOnward(s, t, pc, a);
    }
  }

  lemma WakeQuiet(s: Side, t: nat, pc: PC, a: nat, s': Side)
    requires s.batch > 0 && WakePC(pc) && s' == WakeStep(s, t, pc, a)
    ensures t in s'.calls && s'.calls == s.calls[t := s'.calls[t]] && Quiet(s, s')
  {
    hide AfterClean, Resume;
    if pc.WakeHeld? {
      TransferQuiet(s, t, pc, a, s');
      hide WakeStep;
    }
  }

  lemma TransferQuiet(s: Side, t: nat, pc: PC, a: nat, s': Side)
    requires s.batch > 0 && pc.WakeHeld? && s' == WakeStep(s, t, pc, a)
    ensures t in s'.calls && s'.calls == s.calls[t := s'.calls[t]] && Quiet(s, s')
  {
    hide AfterClean, Resume;
  }

  lemma CleanOnward(s: Side, t: nat, pc: PC, a: nat)
    requires s.batch > 0 && (pc.Recheck? || pc.Clean? || pc.Wake?)
    ensures t in WakeStep(s, t, pc, a).calls && ToldAt(WakeStep(s, t, pc, a).calls[t]) == ToldAt(pc)
  {
    hide AfterClean, Resume, ToldNext, ToldResult;
    if pc.Clean? {
      CleanTold(s, pc.pollers, pc.parked, pc.next, a);
    }
  }

  lemma SendOnward(s: Side, t: nat, pc: PC, a: nat)
    requires s.batch > 0 && (pc.WakeHeld? || pc.Send? || pc.SendTo?)
    ensures t in WakeStep(s, t, pc, a).calls
    ensures WakeStep(s, t, pc, a).calls[t] != Panicked ==> ToldAt(WakeStep(s, t, pc, a).calls[t]) == ToldAt(pc)
  {
    hide AfterClean, Resume, ToldNext, ToldResult;
    ResumeTold(pc.next);
  }

  lemma SupplyTells(s: Side, t: nat, pc: PC, a: nat, s': Side)
    requires s.batch > 0 && t in s.calls && s.calls[t] == pc && SupplyPC(pc) && s' == SupplyStep(s, t, pc, a)
    requires (pc.Filling? ==> a <= s.hidden) && (pc.CloseDone? ==> s.closed)
    ensures Tells(s, t, s')
  {
    hide AfterCheck, AfterProbe, Supplying;
    assert t in s'.calls && s'.calls == s.calls[t := s'.calls[t]] && Quiet(s, s') by { hide ToldAt, Onward; }
    hide Quiet;
    SupplyOnward(s, t, pc, a);
  }

  lemma CheckTold(s: Side, pollers: nat, a: nat)
    requires s.batch > 0
    ensures ToldAt(AfterCheck(s)) == Nothing && ToldAt(AfterProbe(s, pollers, a)) == Nothing
  {
    hide Target;
  }

  lemma SupplyOnward(s: Side, t: nat, pc: PC, a: nat)
    requires s.batch > 0 && SupplyPC(pc) && (pc.Filling? ==> a <= s.hidden) && (pc.CloseDone? ==> s.closed)
    ensures t in SupplyStep(s, t, pc, a).calls
    ensures Onward(pc, SupplyStep(s, t, pc, a).calls[t], SupplyStep(s, t, pc, a).closed)
  {
    hide AfterCheck, AfterProbe, SupplyStep;
    CheckTold(s, if pc.Probe? then pc.pollers else 0, a);
    if pc.CloseLock? || pc.CloseHeld? || pc.CloseDone? {
      CloseOnward(s, t, pc, a);
    } else {
      PutOnward(s, t, pc, a);
    }
  }

  lemma CloseOnward(s: Side, t: nat, pc: PC, a: nat)
    requires s.batch > 0 && (pc.CloseLock? || pc.CloseHeld? || pc.CloseDone?) && (pc.CloseDone? ==> s.closed)
    ensures t in SupplyStep(s, t, pc, a).calls
    ensures Onward(pc, SupplyStep(s, t, pc, a).calls[t], SupplyStep(s, t, pc, a).closed)
  {
    hide AfterCheck, AfterProbe, Supplying;
  }

  lemma PutOnward(s: Side, t: nat, pc: PC, a: nat)
    requires s.batch > 0 && (pc.Offer? || pc.Put? || pc.Filling? || pc.Check? || pc.Probe?) && (pc.Filling? ==> a <= s.hidden)
    requires ToldAt(AfterCheck(s)) == Nothing && (pc.Probe? ==> ToldAt(AfterProbe(s, pc.pollers, a)) == Nothing)
    ensures t in SupplyStep(s, t, pc, a).calls
    ensures Onward(pc, SupplyStep(s, t, pc, a).calls[t], SupplyStep(s, t, pc, a).closed)
  {
    hide AfterCheck, AfterProbe, Supplying;
  }

  lemma TellsKeeps(s: Side, t: nat, s': Side)
    requires ResultInv(s) && Tells(s, t, s') && s'.calls[t] != Panicked
    ensures ResultInv(s')
  {
    hide ToldAt;
    forall u | u in s'.calls ensures CallResult(s', u) {
      assert CallResult(s, u);
    }
  }

  lemma GoTells(s: Side, t: nat, a: nat, s': Side)
    requires ResultInv(s) && s.batch > 0 && Enabled(s, Go(t, a)) && s' == Apply(s, Go(t, a))
    ensures Tells(s, t, s')
  {
    hide TakerStep, WakeStep, SupplyStep, Tells;
    assert CallResult(s, t);
    if TakerPC(s.calls[t]) {
      TakerTells(s, t, s.calls[t], a, s');
    } else if WakePC(s.calls[t]) {
      WakeTells(s, t, s.calls[t], a, s');
    } else {
      SupplyTells(s, t, s.calls[t], a, s');
    }
  }

  lemma GoResult(s: Side, t: nat, a: nat, s': Side)
    requires Inv(s) && Inv(s') && ResultInv(s) && s.batch > 0 && Enabled(s, Go(t, a)) && s' == Apply(s, Go(t, a))
    ensures ResultInv(s')
  {
    hide Inv, Tells, Apply, Enabled, ResultInv;
    GoTells(s, t, a, s');
    TellsCall(s, t, s');
    Unpanicked(s', t);
    TellsKeeps(s, t, s');
  }

  lemma TellsCall(s: Side, t: nat, s': Side)
    requires Tells(s, t, s')
    ensures t in s'.calls
  {
  }

  lemma Unpanicked(s: Side, t: nat)
    requires Inv(s) && t in s.calls
    ensures s.calls[t] != Panicked && (s.done ==> s.closed)
  {
  }

  lemma AttemptTold(pc: PC, m: nat)
    requires pc.Free? || pc.Poll? || pc.Extra? || pc.Drain?
    ensures ToldAt(AfterAttempt(pc, m)) == Receipt <==> m > 0
    ensures ToldAt(AfterAttempt(pc, m)) in {Nothing, Receipt, Closure} && ToldAt(pc) != Receipt
    ensures ToldAt(AfterAttempt(pc, m)) == Closure ==> ToldAt(pc) == Closure
  {
  }

  lemma AttemptResult(s: Side, t: nat, m: nat, s': Side)
    requires ResultInv(s) && s.batch > 0 && Enabled(s, Attempt(t, m)) && s' == Apply(s, Attempt(t, m))
    ensures ResultInv(s')
  {
    hide ToldAt, AfterAttempt;
    AttemptTold(s.calls[t], m);
    SumUpdate(s.log.taken, t, s.log.Of(t) + m);
    hide Sum;
    assert CallResult(s, t);
    forall u | u in s'.calls ensures CallResult(s', u) {
      assert u != t ==> CallResult(s, u);
    }
  }

  lemma BeginResult(s: Side, t: nat, pc: PC, s': Side)
    requires ResultInv(s) && s.batch > 0 && Enabled(s, Begin(t, pc)) && s' == Apply(s, Begin(t, pc))
    ensures ResultInv(s')
  {
    SumUpdate(s.log.taken, t, 0);
    forall u | u in s'.calls ensures CallResult(s', u) {
      assert u != t ==> CallResult(s, u);
    }
  }

  lemma EndResult(s: Side, t: nat, s': Side)
    requires ResultInv(s) && s.batch > 0 && Enabled(s, End(t)) && s' == Apply(s, End(t))
    ensures ResultInv(s')
  {
    SumWithout(s.log.taken, t);
    assert CallResult(s, t);
    forall u | u in s'.calls ensures CallResult(s', u) {
      assert CallResult(s, u);
    }
  }

  /** A call gives up, joins or leaves the wait, or is told of closure. */
  lemma OtherTold(s: Side, x: Action, s': Side)
    requires s.batch > 0 && Enabled(s, x) && s' == Apply(s, x) && (s.done ==> s.closed)
    requires !x.Go? && !x.Attempt? && !x.Begin? && !x.End?
    ensures x.t in s.calls && s'.calls == s.calls[x.t := s'.calls[x.t]] && s'.closed == s.closed && s'.acquired == s.acquired
    ensures s'.log == s.log.(quit := s'.log.quit) && s.log.quit <= s'.log.quit
    ensures ToldAt(s.calls[x.t]) == Nothing && ToldAt(s'.calls[x.t]) != Receipt
    ensures ToldAt(s'.calls[x.t]) in {Cancellation, ClosureCheck} ==> x.t in s'.log.quit
    ensures ToldAt(s'.calls[x.t]) == Closure ==> s.closed
  {
  }

  lemma OtherResult(s: Side, x: Action, s': Side)
    requires ResultInv(s) && s.batch > 0 && Enabled(s, x) && s' == Apply(s, x) && (s.done ==> s.closed)
    requires !x.Go? && !x.Attempt? && !x.Begin? && !x.End?
    ensures ResultInv(s')
  {
    hide ToldAt, Apply, Enabled;
    OtherTold(s, x, s');
    assert CallResult(s, x.t);
    forall u | u in s'.calls ensures CallResult(s', u) {
      assert u != x.t ==> CallResult(s, u);
    }
  }

  lemma StepResult(s: Side, x: Action, s': Side)
    requires Inv(s) && Inv(s') && ResultInv(s) && s.batch > 0 && Enabled(s, x) && s' == Apply(s, x)
    ensures ResultInv(s')
  {
    hide Inv, ResultInv, Apply;
    match x {
      case Go(t, a) => GoResult(s, t, a, s');
      case Attempt(t, m) => AttemptResult(s, t, m, s');
      case Begin(t, pc) => BeginResult(s, t, pc, s');
      case End(t) => EndResult(s, t, s');
      case _ =>
        Unpanicked(s, x.t);
        OtherResult(s, x, s');
    }
  }

  lemma {:induction false} RunResults(run: seq<Side>, i: nat)
    requires Run(run) && i < |run|
    ensures ResultInv(run[i])
  {
    hide Inv, ResultInv, Enabled, Apply;
    if i == 0 {
      InitResults(run[0]);
    } else {
      RunResults(run, i - 1);
      RunInv(run, i - 1);
      RunInv(run, i);
      assert Next(run[i - 1], run[i - 1 + 1]);
      var x :| Enabled(run[i - 1], x) && run[i] == Apply(run[i - 1], x);
      StepResult(run[i - 1], x, run[i]);
    }
  }

  lemma InitResults(s: Side)
    requires Init(s)
    ensures ResultInv(s)
  {
  }

  // ---------------------------------------------------------------------------------------
  // Promises

  /** A call is told that it received something if and only if it took something. One that is told it was canceled or
      stopped has given up, and one that is told of closure returns from a closed side. */
  lemma ResultsTrue(run: seq<Side>, i: nat, t: nat)
    requires Run(run) && i < |run| && t in run[i].calls && run[i].calls[t].Returned?
    ensures
      var result := run[i].calls[t].result;
      && (result == Received <==> run[i].log.Of(t) > 0)
      && (result == Canceled || result == Stopped ==> t in run[i].log.quit)
      && (result == Ended || result == Refused || result == Closed ==> run[i].closed)
  {
    RunResults(run, i);
    assert CallResult(run[i], t);
  }

  /** Everything ever taken was received by a call that has ended, or is with a call under way. */
  lemma NothingLost(run: seq<Side>, i: nat)
    requires Run(run) && i < |run|
    ensures run[i].acquired == run[i].log.received + Sum(run[i].log.taken)
    ensures run[i].log.taken.Keys == run[i].calls.Keys
    ensures run[i].calls == map[] ==> run[i].acquired == run[i].log.received
  {
    RunResults(run, i);
  }

  // ---------------------------------------------------------------------------------------
  // Closure wins over giving up

  /** On the way to the check for closure, or past it on a closed side. */
  predicate Checking(pc: PC) {
    ToldAt(pc) in {ClosureCheck, Closure, Receipt}
  }

  lemma GoChecks(s: Side, u: nat, s': Side, t: nat)
    requires Tells(s, u, s') && s.closed && t in s.calls && t in s'.calls && s'.calls[t] != Panicked && Checking(s.calls[t])
    ensures Checking(s'.calls[t])
  {
    hide ToldAt;
  }

  lemma StepChecks(s: Side, x: Action, s': Side, t: nat)
    requires Inv(s) && Inv(s') && ResultInv(s) && s.closed && s.batch > 0 && Enabled(s, x) && s' == Apply(s, x)
    requires t in s.calls && t in s'.calls && Checking(s.calls[t])
    ensures Checking(s'.calls[t])
  {
    Unpanicked(s', t);
    Unpanicked(s, t);
    hide Inv, ResultInv, Apply, Tells, Enabled, Checking;
    if x.Go? {
      GoTells(s, x.t, x.a, s');
      GoChecks(s, x.t, s', t);
    } else if x.Attempt? {
      AttemptChecks(s, x.t, x.m, s', t);
    } else {
      OtherChecks(s, x, s', t);
    }
  }

  lemma AttemptChecks(s: Side, u: nat, m: nat, s': Side, t: nat)
    requires s.batch > 0 && Enabled(s, Attempt(u, m)) && s' == Apply(s, Attempt(u, m))
    requires t in s.calls && t in s'.calls && Checking(s.calls[t])
    ensures Checking(s'.calls[t])
  {
    AttemptStays(s.calls[u], m);
    hide ToldAt, AfterAttempt, Checking;
  }

  lemma AttemptStays(pc: PC, m: nat)
    requires pc.Free? || pc.Poll? || pc.Extra? || pc.Drain?
    ensures Checking(pc) ==> Checking(AfterAttempt(pc, m))
  {
  }

  lemma OtherChecks(s: Side, x: Action, s': Side, t: nat)
    requires s.batch > 0 && Enabled(s, x) && s' == Apply(s, x) && !x.Go? && !x.Attempt? && (s.done ==> s.closed)
    requires t in s.calls && t in s'.calls && Checking(s.calls[t])
    ensures Checking(s'.calls[t])
  {
    if !x.Begin? && !x.End? {
      OtherTold(s, x, s');
      hide Apply, Enabled, ToldAt;
    } else {
      hide ToldAt;
    }
  }

  /** A call that gives up in the list of a closed side is not told that it was canceled: it drains, and receives
      something or learns of the end. */
  lemma {:induction false} ClosureWins(run: seq<Side>, i: nat, j: nat, t: nat)
    requires Run(run) && i <= j < |run| && run[i].closed && (forall k | i <= k <= j :: t in run[k].calls)
    requires Checking(run[i].calls[t])
    ensures run[j].closed && Checking(run[j].calls[t]) && run[j].calls[t] != Returned(Canceled)
    decreases j
  {
    hide Inv, Init, Enabled, Apply, Checking, ResultInv;
    assert Checking(run[j].calls[t]) ==> run[j].calls[t] != Returned(Canceled) by { hide *; NotCanceled(run[j].calls[t]); }
    if i < j {
      ClosureWins(run, i, j - 1, t);
      RunInv(run, j - 1);
      RunInv(run, j);
      RunResults(run, j - 1);
      ClosedRun(run, i, j);
      assert Next(run[j - 1], run[j - 1 + 1]);
      var x :| Enabled(run[j - 1], x) && run[j] == Apply(run[j - 1], x);
      StepChecks(run[j - 1], x, run[j], t);
    }
  }

  lemma NotCanceled(pc: PC)
    ensures Checking(pc) ==> pc != Returned(Canceled)
  {
  }
}
