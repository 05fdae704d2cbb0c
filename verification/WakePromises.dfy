/** What the wait side promises in every run. */
module WakePromises {
  import opened WakeProtocol
  import opened WakeInvariant
  import opened WakeTheorems

  /** A call with nothing left to do on its own: returned, parked with no token and no closure, or
      a supplier that waits on the other side of the queue or is between two chunks. */
  predicate Asleep(s: Side, t: nat)
    requires t in s.calls
  {
    s.calls[t].Returned? || s.calls[t].Put? || (s.calls[t].Park? && t !in s.tokens && !s.done)
  }

  /** The panicking branches are never reached: no poller count is dropped below zero, no wake aims or counts
      past the limit of the word, no parked call is missing from the list, and no waiter is sent a second
      token. */
  lemma NoPanic(run: seq<Side>, i: nat, t: nat)
    requires Run(run) && i < |run| && t in run[i].calls
    ensures run[i].calls[t] != Panicked
  {
    RunInv(run, i);
  }

  /** Registered to look at the supply, owing a wake, or in the middle of one. */
  ghost predicate Attends(s: Side, t: nat) {
    t in s.calls && (Registered(s, t) || Owes(s.calls[t]) || s.owner == By(t))
  }

  lemma HolderAttends(s: Side)
    requires SideInv(s)
    ensures s.owner.By? ==> Attends(s, s.owner.call) && !Asleep(s, s.owner.call)
  {
    if s.owner.By? {
      assert V(s, s.owner.call).lock;
    }
  }

  lemma RegisteredAttends(s: Side)
    requires SideInv(s) && s.owner == Nobody && s.pollers > 0
    ensures exists u :: Attends(s, u) && !Asleep(s, u)
  {
    assert Pollers(s) != {};
    var u :| u in Pollers(s);
    assert Attends(s, u) && !Asleep(s, u);
  }

  lemma VisibleAttended(s: Side, t: nat)
    requires Inv(s) && t in s.calls && s.calls[t].Park? && Asleep(s, t)
    ensures s.visible > 0 ==> exists u :: Attends(s, u) && !Asleep(s, u)
  {
    HolderAttends(s);
    if s.owner == Nobody && s.visible > 0 {
      assert V(s, t).waits;
      assert t in s.list && s.parked == |s.list| > 0;
      if s.pollers > 0 {
        RegisteredAttends(s);
      } else {
        var u :| u in s.calls && Owes(s.calls[u]);
        assert Attends(s, u) && !Asleep(s, u);
      }
    }
  }

  /** Supply in sight of a parked call is never left to no one: some call is awake that is a
      registered poller, owes a look or a wake, or holds the mutex to give one. */
  lemma SomeoneAttends(run: seq<Side>, i: nat, t: nat)
    requires Run(run) && i < |run| && run[i].visible > 0
    requires t in run[i].calls && run[i].calls[t].Park? && Asleep(run[i], t)
    ensures exists u :: Attends(run[i], u) && !Asleep(run[i], u)
  {
    hide Asleep;
    RunInv(run, i);
    VisibleAttended(run[i], t);
  }

  /** No lost wakeup: when every call has returned or sleeps, no call sleeps while supply shows,
      and nothing accepted is hidden. */
  lemma NoLostWakeup(run: seq<Side>, i: nat, t: nat)
    requires Run(run) && i < |run| && t in run[i].calls && run[i].calls[t].Park?
    requires forall u :: u in run[i].calls ==> Asleep(run[i], u)
    ensures run[i].visible == 0 && run[i].hidden == 0
  {
    RunInv(run, i);
    VisibleAttended(run[i], t);
  }

  /** Steps of calls already begun, other than a caller giving up. */
  predicate Forward(x: Action) {
    !x.Begin? && !x.End? && !x.GiveUp?
  }

  function Choice(s: Side, t: nat): Action
    requires t in s.calls
  {
    match s.calls[t]
    case Free => Register(t)
    case Poll => Enlist(t)
    case Extra => Attempt(t, s.visible)
    case Drain => Attempt(t, s.visible)
    case Park => if t in s.tokens then ReceiveToken(t) else ReceiveDone(t)
    case Filling => Go(t, s.hidden)
    case Clean(_, _, _) => Go(t, s.visible)
    case Probe(_) => Go(t, s.visible)
    case _ => Go(t, 0)
  }

  lemma TakerMoves(s: Side, t: nat, pc: PC, a: nat)
    requires TakerPC(pc)
    ensures t in TakerStep(s, t, pc, a).calls && TakerStep(s, t, pc, a).calls[t] != pc
  {
    hide Without;
  }

  lemma WakeMoves(s: Side, t: nat, pc: PC, a: nat)
    requires s.batch > 0 && WakePC(pc)
    ensures t in WakeStep(s, t, pc, a).calls && WakeStep(s, t, pc, a).calls[t] != pc
  {
    hide Target;
  }

  lemma SupplyMoves(s: Side, t: nat, pc: PC, a: nat)
    requires s.batch > 0 && SupplyPC(pc) && !pc.Put? && (pc.Filling? ==> a <= s.hidden)
    ensures t in SupplyStep(s, t, pc, a).calls && SupplyStep(s, t, pc, a).calls[t] != pc
  {
    hide Target, Supplying;
  }

  lemma GoMoves(s: Side, t: nat, a: nat)
    requires s.batch > 0 && t in s.calls && GoEnabled(s, t, s.calls[t], a) && !s.calls[t].Put?
    ensures t in Apply(s, Go(t, a)).calls && Apply(s, Go(t, a)).calls[t] != s.calls[t]
  {
    hide TakerStep, WakeStep, SupplyStep;
    var pc := s.calls[t];
    if TakerPC(pc) {
      TakerMoves(s, t, pc, a);
    } else if WakePC(pc) {
      WakeMoves(s, t, pc, a);
    } else {
      SupplyMoves(s, t, pc, a);
    }
  }

  lemma HolderReady(s: Side)
    requires SideInv(s) && s.owner.By?
    ensures s.owner.call in s.calls && !s.calls[s.owner.call].Put? && GoEnabled(s, s.owner.call, s.calls[s.owner.call], 0)
  {
    assert V(s, s.owner.call).lock;
  }

  lemma AwakeReady(s: Side, t: nat)
    requires Inv(s) && t in s.calls && !Asleep(s, t) && s.owner == Nobody
    ensures Forward(Choice(s, t)) && Choice(s, t).t == t && Enabled(s, Choice(s, t))
    ensures s.calls[t] != Panicked && !s.calls[t].Put? && !s.calls[t].Returned?
  {
    assert s.calls[t] != Panicked;
    hide WakeInv, CloseInv, SupplyInv, TargetInv, Registered;
    assert s.calls[t].AwaitToken? ==> V(s, t).waits && V(s, t).chosen;
  }

  lemma ChoiceMoves(s: Side, t: nat)
    requires s.batch > 0 && t in s.calls && Enabled(s, Choice(s, t)) && !s.calls[t].Put?
    ensures Choice(s, t).t == t && t in Apply(s, Choice(s, t)).calls && Apply(s, Choice(s, t)).calls[t] != s.calls[t]
  {
    if Choice(s, t).Go? {
      hide GoEnabled, TakerStep, WakeStep, SupplyStep;
      GoMoves(s, t, Choice(s, t).a);
    }
  }

  /** No deadlock: if the mutex is held its holder can step, and if it is free every call that is not asleep
      can, and the step takes that call to another point. */
  lemma NoDeadlock(run: seq<Side>, i: nat, t: nat)
    requires Run(run) && i < |run| && t in run[i].calls && !Asleep(run[i], t)
    ensures run[i].batch > 0
    ensures
      var s := run[i];
      var x := if s.owner.By? then Go(s.owner.call, 0) else Choice(s, t);
      && Forward(x) && x.t == (if s.owner.By? then s.owner.call else t) && x.t in s.calls
      && Enabled(s, x) && x.t in Apply(s, x).calls && Apply(s, x).calls[x.t] != s.calls[x.t]
  {
    RunInv(run, i);
    var s := run[i];
    assert SideInv(s);
    hide Apply, GoEnabled, Asleep, Choice, Enabled, SideInv, WakeInv, CloseInv, SupplyInv, TargetInv;
    assert s.batch > 0 by {
      BatchPositive(s);
    }
    if s.owner.By? {
      HolderReady(s);
      GoMoves(s, s.owner.call, 0);
      HolderEnabled(s);
    } else {
      AwakeReady(s, t);
      ChoiceMoves(s, t);
    }
  }

  lemma BatchPositive(s: Side)
    requires SideInv(s)
    ensures s.batch > 0
  {
  }

  lemma HolderEnabled(s: Side)
    requires s.owner.By? && s.owner.call in s.calls && GoEnabled(s, s.owner.call, s.calls[s.owner.call], 0)
    ensures Enabled(s, Go(s.owner.call, 0))
  {
  }

  /** With the mutex free, the word counts exactly the registered pollers and the listed calls. */
  lemma CountsExact(run: seq<Side>, i: nat)
    requires Run(run) && i < |run| && run[i].owner == Nobody
    ensures run[i].pollers == |Pollers(run[i])| && run[i].parked == |run[i].list|
  {
    RunInv(run, i);
  }

  /** A waiting call is in exactly one place: listed, holding its one token, or about to be sent it. */
  lemma OnePlace(run: seq<Side>, i: nat, t: nat)
    requires Run(run) && i < |run| && V(run[i], t).waits
    ensures t in run[i].list || t in run[i].tokens || Holder(run[i]).to == Waiter(t)
    ensures !(t in run[i].list && t in run[i].tokens)
    ensures Holder(run[i]).to == Waiter(t) ==> t !in run[i].list && t !in run[i].tokens
  {
    RunInv(run, i);
  }

  /** The target is the least number of takers whose batches cover what is available, or the cap. */
  lemma TargetCovers(cap: nat, batch: nat, available: nat, takers: nat)
    requires batch > 0 && takers <= cap
    ensures takers >= Target(cap, batch, available) <==> takers * batch >= available || takers == cap
  {
    if available > 0 {
      var q := (available - 1) / batch;
      assert q * batch <= available - 1 < (q + 1) * batch;
      if takers <= q {
        Scale(takers, q, batch);
      } else {
        Scale(q + 1, takers, batch);
      }
    }
  }

  lemma Scale(a: nat, b: nat, batch: nat)
    requires a <= b
    ensures a * batch <= b * batch
  {
  }

  /** With `takers` polling, their batches cover `available`, or no more may poll. */
  predicate Covers(s: Side, takers: nat, available: nat) {
    takers * s.batch >= available || takers >= s.cap
  }

  /** The call goes on to wake, up to the least number of takers that cover `available` and are `floor` at least. */
  ghost predicate AimsAt(s: Side, pc: PC, available: nat, floor: nat) {
    && pc.Wake? && Covers(s, pc.target, available) && floor <= pc.target
    && forall fewer: nat | floor <= fewer < pc.target :: !Covers(s, fewer, available)
  }

  /** A supplier that finds takers parked wakes if and only if those polling are none or do not cover what it sees,
      and a call that leaves wakes if and only if some are parked and those polling do not cover it. Either aims at
      the least number that does. */
  lemma WakesEnough(s: Side, t: nat, a: nat, s': Side)
    requires s.cap > 0 && s.batch > 0 && Enabled(s, Go(t, a)) && s' == Apply(s, Go(t, a))
    ensures s.calls[t].Probe? ==>
      if s.calls[t].pollers > 0 && Covers(s, s.calls[t].pollers, a) then s'.calls[t] == Put
      else AimsAt(s, s'.calls[t], a, 1) && s'.calls[t].next == Pushed
    ensures s.calls[t].Clean? ==>
      if s.calls[t].parked == 0 || Covers(s, s.calls[t].pollers, a) then s'.calls[t] == Resume(s.calls[t].next)
      else AimsAt(s, s'.calls[t], a, 0) && s'.calls[t].next == s.calls[t].next
  {
    if s.calls[t].Probe? || s.calls[t].Clean? {
      var pollers := s.calls[t].pollers;
      TargetLeast(s, a);
      if pollers <= s.cap {
        TargetCovers(s.cap, s.batch, a, pollers);
      } else {
        assert Target(s.cap, s.batch, a) <= s.cap;
      }
      hide Target, Covers;
    }
  }

  /** The target covers what is available, and no smaller number does. */
  lemma TargetLeast(s: Side, a: nat)
    requires s.batch > 0
    ensures
      var target := Target(s.cap, s.batch, a);
      target <= s.cap && Covers(s, target, a) && forall fewer: nat | fewer < target :: !Covers(s, fewer, a)
  {
    var target := Target(s.cap, s.batch, a);
    assert target <= s.cap;
    TargetCovers(s.cap, s.batch, a, target);
    forall fewer: nat | fewer < target ensures !Covers(s, fewer, a) {
      TargetCovers(s.cap, s.batch, a, fewer);
    }
  }

  /** A wake transfers the waiters it finds, up to its target and never past the cap. */
  lemma GroupBounded(run: seq<Side>, i: nat, t: nat, a: nat, s': Side)
    requires Run(run) && i < |run| && t in run[i].calls && run[i].calls[t].WakeHeld?
    requires run[i].batch > 0 && s' == WakeStep(run[i], t, run[i].calls[t], a)
    ensures s'.pollers + s'.parked == run[i].pollers + run[i].parked
    ensures s'.pollers >= run[i].calls[t].target || s'.parked == 0
    ensures s'.pollers == run[i].pollers || run[i].pollers < s'.pollers <= run[i].calls[t].target <= run[i].cap
  {
    RunInv(run, i);
    assert Aimed(run[i].calls[t], run[i].cap);
  }

  // ---------------------------------------------------------------------------------------
  // Close

  /** Once the side is closed and the mutex is free, every parked call can leave. */
  lemma CloseReleases(run: seq<Side>, i: nat, t: nat)
    requires Run(run) && i < |run| && run[i].closed && run[i].owner == Nobody
    requires t in run[i].calls && run[i].calls[t].Park?
    ensures Enabled(run[i], ReceiveDone(t)) && !Asleep(run[i], t)
  {
    RunInv(run, i);
  }

  /** Closed for good, and unless a supplier was under way nothing more is accepted or shown. */
  ghost predicate Settled(s: Side, s': Side) {
    && s'.closed && s'.raced == s.raced
    && (!s.raced ==> s'.visible <= s.visible && s'.hidden == s.hidden && s'.accepted == s.accepted)
  }

  lemma TakerUntouched(s: Side, t: nat, pc: PC, a: nat)
    ensures Untouched(s, TakerStep(s, t, pc, a))
  {
    hide Without, Resume;
  }

  lemma WakeUntouched(s: Side, t: nat, pc: PC, a: nat)
    requires s.batch > 0
    ensures Untouched(s, WakeStep(s, t, pc, a))
  {
    hide AfterClean, Resume;
  }

  lemma SupplySettles(s: Side, t: nat, pc: PC, a: nat)
    requires s.batch > 0 && s.closed && (!s.raced ==> !Supplying(pc))
    ensures Settled(s, SupplyStep(s, t, pc, a))
  {
    hide AfterCheck, AfterProbe;
  }

  lemma ClosedStep(s: Side, x: Action, s': Side)
    requires Inv(s) && s.closed && Enabled(s, x) && s' == Apply(s, x)
    ensures Settled(s, s')
  {
    assert !s.raced && x.Go? ==> !Supplying(s.calls[x.t]);
    hide Inv, TakerStep, WakeStep, SupplyStep, GoEnabled, AfterAttempt, Supplying;
    if x.Go? {
      TakerUntouched(s, x.t, s.calls[x.t], x.a);
      WakeUntouched(s, x.t, s.calls[x.t], x.a);
      SupplySettles(s, x.t, s.calls[x.t], x.a);
    }
  }

  lemma {:induction false} ClosedRun(run: seq<Side>, i: nat, j: nat)
    requires Run(run) && i <= j < |run| && run[i].closed
    ensures Settled(run[i], run[j])
  {
    hide Inv, Init, Enabled, Apply;
    if i < j {
      ClosedRun(run, i, j - 1);
      RunInv(run, j - 1);
      assert Next(run[j - 1], run[j - 1 + 1]);
      var x :| Enabled(run[j - 1], x) && run[j] == Apply(run[j - 1], x);
      ClosedStep(run[j - 1], x, run[j]);
    }
  }

  /** End of stream: once a taker has been told that the closed queue is empty, everything accepted
      has been taken, then and ever after, unless a supplier was under way when the queue closed. */
  lemma EndOfStream(run: seq<Side>, i: nat, t: nat, j: nat)
    requires Run(run) && i <= j < |run| && t in run[i].calls && run[i].calls[t] == Returned(Ended)
    requires !run[i].raced
    ensures run[j].closed && run[j].acquired == run[j].accepted == run[i].accepted
  {
    RunInv(run, i);
    RunInv(run, j);
    ClosedRun(run, i, j);
  }
}
