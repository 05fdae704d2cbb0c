/** What the calls of the dpdk MPMC queue wait for, and that they wait for nothing else. A call that runs alone is
    answered, unless a relaxed side is too far ahead of its tail. It then publishes, unless its side is ordered and an
    earlier reservation is not published; of the reservations not published yet the first always can be. */
module DpdkProgress {
  import opened Words32
  import opened DpdkRing
  import opened DpdkInvariant
  import opened DpdkTheorems
  import opened DpdkRefusals

  /** The state after `k` steps of call `t` in a row. */
  ghost function After(s: State, t: nat, k: nat): State
    decreases k
  {
    if k == 0 || !Enabled(s, Go(t)) then s else After(Apply(s, Go(t)), t, k - 1)
  }

  lemma NoSteps(s: State, t: nat)
    ensures After(s, t, 0) == s
  {
  }

  lemma MoreSteps(s: State, t: nat, k: nat)
    requires Enabled(s, Go(t))
    ensures After(s, t, k + 1) == After(Apply(s, Go(t)), t, k)
  {
    hide Apply;
  }

  // ---------------------------------------------------------------------------------------
  // Reserving

  predicate Reserving(pc: PC) {
    pc.Start? || pc.GotTail? || Holding(pc)
  }

  predicate Answered(pc: PC) {
    pc.Working? || pc == Finished(0)
  }

  /** What the call has loaded is out of date, so it may have to start again. */
  predicate OutOfDate(cap: nat, own: Side, call: Call)
    requires cap < CYCLE
  {
    match call.pc
    case GotTail(t) => t != own.tail
    case GotHead(h, _) => h != Head(own)
    case Refresh(h, _, _) => h != Head(own)
    case Keep(h, _, p) => h != Head(own) || Stale(cap, call, h, p)
    case Reserve(h, _, p) => h != Head(own) || Stale(cap, call, h, p)
    case _ => false
  }

  function ReservePhase(pc: PC): nat {
    match pc
    case Start => 6
    case GotTail(_) => 5
    case GotHead(_, _) => 4
    case Refresh(_, _, _) => 3
    case Keep(_, _, _) => 2
    case Reserve(_, _, _) => 1
    case _ => 0
  }

  /** The cache and the head held are within the limits on use, and a relaxed head is near enough to its tail. */
  predicate MayReserve(cap: nat, own: Side, opposite: nat, cache: nat, call: Call) {
    && opposite < cache + CYCLE - cap && (call.pc.Keep? ==> opposite < call.pc.p + CYCLE - cap)
    && (Holding(call.pc) ==> Head(own) < call.pc.h + CYCLE && Made(own) < call.pc.c + CYCLE)
    && (own.relaxed || call.pc.GotTail? ==> Head(own) - own.tail <= call.distance)
  }

  ghost predicate Nearer(cap: nat, own: Side, call: Call, e: Effect)
    requires cap < CYCLE
  {
    var after := call.(pc := e.pc);
    || Answered(e.pc)
    || (Reserving(e.pc) && (OutOfDate(cap, e.own, after) ==> OutOfDate(cap, own, call))
        && ((OutOfDate(cap, own, call) && !OutOfDate(cap, e.own, after)) || ReservePhase(e.pc) < ReservePhase(call.pc)))
  }

  /** A step of a reserving call answers it or brings it nearer, and leaves it within the limits. */
  ghost predicate ReserveStep(cap: nat, own: Side, opposite: nat, cache: nat, call: Call, e: Effect)
    requires cap < CYCLE
  {
    && Nearer(cap, own, call, e)
    && (Reserving(e.pc) ==>
          && e.own == own && MayReserve(cap, e.own, opposite, e.cache, call.(pc := e.pc))
          && Within(cap, e.own, opposite, e.cache, call.(pc := e.pc)))
  }

  /** With the head as it is and the position just loaded, the room is within the capacity. */
  lemma UpToDate(cap: nat, own: Side, opposite: nat, call: Call)
    requires Standing(cap, call.producer, own, opposite)
    ensures !Stale(cap, call, Head(own), opposite)
  {
    AdmissionExact(cap, Lead(cap, call.producer), opposite, Head(own));
    hide SideOk, Room, W;
  }

  lemma LoadStep(cap: nat, own: Side, opposite: nat, cache: nat, call: Call, e: Effect)
    requires Ready(cap, own, opposite, cache, call) && MayReserve(cap, own, opposite, cache, call)
    requires call.pc.Start? || call.pc.GotTail?
    requires e == Turn(cap, own, opposite, cache, call)
    ensures ReserveStep(cap, own, opposite, cache, call, e)
  {
    assert own.published <= own.tail <= Head(own) <= own.published + cap < own.published + CYCLE;
    if call.pc.GotTail? {
      Lap(call.pc.t, Head(own));
    }
    hide SideOk, W, Sub32, Granted, Stale, SameHead;
  }

  lemma ObserveStep(cap: nat, own: Side, opposite: nat, cache: nat, call: Call, e: Effect)
    requires Ready(cap, own, opposite, cache, call) && MayReserve(cap, own, opposite, cache, call)
    requires call.pc.GotHead? || call.pc.Refresh? || call.pc.Keep?
    requires e == Turn(cap, own, opposite, cache, call)
    ensures ReserveStep(cap, own, opposite, cache, call, e)
  {
    UpToDate(cap, own, opposite, call);
    if call.pc.GotHead? && !NeedsFresh(cap, call, call.pc.h, cache) {
      CachedGrants(cap, call, call.pc.h, cache);
    }
    StaleSame(cap, call, e.pc);
    hide SideOk, W, Sub32, Granted, Stale, SameHead, NeedsFresh, CallOk;
  }

  lemma StaleSame(cap: nat, call: Call, pc: PC)
    requires cap < CYCLE
    ensures forall h: nat, p: nat :: Stale(cap, call.(pc := pc), h, p) == Stale(cap, call, h, p)
  {
  }

  lemma DecideStep(cap: nat, own: Side, opposite: nat, cache: nat, call: Call, e: Effect)
    requires Ready(cap, own, opposite, cache, call) && MayReserve(cap, own, opposite, cache, call) && call.pc.Reserve?
    requires e == Turn(cap, own, opposite, cache, call)
    ensures ReserveStep(cap, own, opposite, cache, call, e)
  {
    var h, c := call.pc.h, call.pc.c;
    ReserveShape(cap, own, opposite, cache, call, e);
    if h == Head(own) && !Stale(cap, call, h, call.pc.p) {
      SeenMade(own, h, c);
      Held(cap, own, cache, call, e);
    } else {
      DecidedOutOfDate(cap, own, call);
    }
    hide SideOk, W, Granted, Stale, SameHead, Turn, ReserveTurn, CallOk;
  }

  lemma DecidedOutOfDate(cap: nat, own: Side, call: Call)
    requires cap < CYCLE && call.pc.Reserve? && (call.pc.h != Head(own) || Stale(cap, call, call.pc.h, call.pc.p))
    ensures OutOfDate(cap, own, call) && !OutOfDate(cap, own, call.(pc := Start))
  {
    hide Stale;
  }

  lemma SeenMade(own: Side, h: nat, c: nat)
    requires SideOk(own) && HeadSeen(own, h, c) && h == Head(own)
    ensures c == Made(own)
  {
  }

  lemma Held(cap: nat, own: Side, cache: nat, call: Call, e: Effect)
    requires cap < CYCLE && call.pc.Reserve? && call.pc.h == Head(own) && call.pc.c == Made(own)
    requires !Stale(cap, call, call.pc.h, call.pc.p)
    requires e == ReserveTurn(cap, own, cache, call, call.pc.h, call.pc.c, call.pc.p)
    ensures Answered(e.pc)
  {
    hide Stale, Granted, W;
  }

  lemma ReservingStep(cap: nat, own: Side, opposite: nat, cache: nat, call: Call, e: Effect)
    requires Ready(cap, own, opposite, cache, call) && MayReserve(cap, own, opposite, cache, call) && Reserving(call.pc)
    requires e == Turn(cap, own, opposite, cache, call)
    ensures ReserveStep(cap, own, opposite, cache, call, e)
  {
    hide Ready, MayReserve, Turn, ReserveStep;
    if call.pc.Start? || call.pc.GotTail? {
      LoadStep(cap, own, opposite, cache, call, e);
    } else if call.pc.Reserve? {
      DecideStep(cap, own, opposite, cache, call, e);
    } else {
      ObserveStep(cap, own, opposite, cache, call, e);
    }
  }

  ghost predicate CanReserve(s: State, t: nat) {
    && t in s.calls && s.cap < CYCLE && Reserving(s.calls[t].pc) && Enabled(s, Go(t))
    && var c := s.calls[t];
       MayReserve(s.cap, Own(s, c.producer), Own(s, !c.producer).published, Cache(s, c.producer), c)
  }

  /** What a step of call `t` leaves in the queue. */
  ghost predicate Left(s: State, t: nat, s': State, e: Effect) {
    && t in s.calls && t in s'.calls && s'.cap == s.cap && s'.calls[t] == s.calls[t].(pc := e.pc)
    && var producer := s.calls[t].producer;
       && Own(s', producer) == e.own && Own(s', !producer).published == Own(s, !producer).published
       && Cache(s', producer) == e.cache
  }

  lemma GoLeft(s: State, t: nat, s': State)
    requires Enabled(s, Go(t)) && s' == Apply(s, Go(t))
    ensures
      var c := s.calls[t];
      Left(s, t, s', Turn(s.cap, Own(s, c.producer), Own(s, !c.producer).published, Cache(s, c.producer), c))
  {
    hide Turn, Within;
  }

  function Distance(s: State, t: nat): nat
    requires t in s.calls && s.cap < CYCLE
  {
    ReservePhase(s.calls[t].pc) + if OutOfDate(s.cap, Own(s, s.calls[t].producer), s.calls[t]) then 10 else 0
  }

  /** The call is answered, or nearer to its answer and still able to go on. */
  ghost predicate NearerIn(s: State, t: nat, s': State) {
    && t in s.calls && t in s'.calls && s.cap == s'.cap < CYCLE
    && (Answered(s'.calls[t].pc) || (CanReserve(s', t) && Distance(s', t) < Distance(s, t)))
  }

  lemma LeftNearer(s: State, t: nat, s': State, e: Effect)
    requires Left(s, t, s', e) && s.cap < CYCLE && s.calls[t].requested <= s.cap
    requires
      var c := s.calls[t];
      ReserveStep(s.cap, Own(s, c.producer), Own(s, !c.producer).published, Cache(s, c.producer), c, e)
    ensures NearerIn(s, t, s')
  {
    hide OutOfDate, MayReserve, Within, Reserving;
  }

  /** One step of a call that can reserve, in the queue. */
  lemma ReserveGo(s: State, t: nat, s': State)
    requires Inv(s) && CanReserve(s, t) && s' == Apply(s, Go(t))
    ensures Inv(s') && NearerIn(s, t, s')
  {
    var c := s.calls[t];
    var own, opposite, cache := Own(s, c.producer), Own(s, !c.producer).published, Cache(s, c.producer);
    var e := Turn(s.cap, own, opposite, cache, c);
    assert MayReserve(s.cap, own, opposite, cache, c) && c.requested <= s.cap < CYCLE && Reserving(c.pc);
    hide *;
    ReadyHere(s, t);
    GoInv(s, t, s');
    GoLeft(s, t, s');
    ReservingStep(s.cap, own, opposite, cache, c, e);
    LeftNearer(s, t, s', e);
  }

  lemma {:induction false} AnswersFrom(s: State, t: nat) returns (k: nat)
    requires Inv(s) && CanReserve(s, t) && t in s.calls && s.cap < CYCLE
    ensures t in After(s, t, k).calls && Answered(After(s, t, k).calls[t].pc)
    decreases Distance(s, t)
  {
    hide Inv, CanReserve, Enabled, Distance, Answered, After, Apply;
    CanReserveIs(s, t);
    var s' := Apply(s, Go(t));
    ReserveGo(s, t, s');
    var rest := 0;
    if Answered(s'.calls[t].pc) {
      NoSteps(s', t);
    } else {
      rest := AnswersFrom(s', t);
    }
    k := rest + 1;
    MoreSteps(s, t, rest);
  }

  lemma CanReserveIs(s: State, t: nat)
    requires CanReserve(s, t)
    ensures t in s.calls && Enabled(s, Go(t)) && s.cap < CYCLE
  {
  }

  /** A call that runs alone is answered: it has reserved, or it is refused. */
  lemma AloneAnswered(run: seq<State>, i: nat, t: nat) returns (k: nat)
    requires Run(run) && i < |run| && t in run[i].calls && run[i].cap < CYCLE && CanReserve(run[i], t)
    ensures t in After(run[i], t, k).calls && Answered(After(run[i], t, k).calls[t].pc)
  {
    hide Inv, CanReserve, After, Answered;
    RunInv(run, i);
    k := AnswersFrom(run[i], t);
  }

  // ---------------------------------------------------------------------------------------
  // Publishing

  predicate Publishing(pc: PC) {
    Works(pc) || Raises(pc)
  }

  predicate Overtaken(own: Side, pc: PC) {
    match pc
    case PubHead(_, cnt, _) => cnt != |own.counted|
    case PubCas(_, cnt, _, _, _) => cnt != |own.counted|
    case RaiseTail(_, m) => m != own.published
    case RaiseCas(_, m, _) => m != own.published
    case _ => false
  }

  function PublishPhase(pc: PC): nat {
    match pc
    case Working(_) => 8
    case PubTail(_) => 7
    case PubHead(_, _, _) => 6
    case PubCas(_, _, _, _, _) => 5
    case Raise(_) => 4
    case RaiseTail(_, _) => 3
    case RaiseCas(_, _, _) => 2
    case _ => 0
  }

  function Way(own: Side, pc: PC): nat {
    PublishPhase(pc) + if Overtaken(own, pc) then 10 else 0
  }

  /** An ordered call is in turn, and what a relaxed call has loaded is within the limits on use. */
  predicate MayPublish(own: Side, pc: PC) {
    && (pc.Working? && !own.relaxed ==> pc.k == |own.counted|)
    && (pc.PubHead? || pc.PubCas? ==> |own.counted| < pc.cnt + CYCLE)
    && (pc.RaiseTail? || pc.RaiseCas? ==> own.published < pc.m + CYCLE)
  }

  /** A step of a publishing call: it is done, or nearer to it, and its reservation is counted or still with it. */
  ghost predicate PublishStep(own: Side, pc: PC, e: Effect) {
    && (e.pc == Finished(1) || (Publishing(e.pc) && MayPublish(e.own, e.pc) && Way(e.own, e.pc) < Way(own, pc)))
    && (Works(pc) ==> pc.k in e.own.counted || (Works(e.pc) && e.pc.k == pc.k))
  }

  lemma WorkStep(cap: nat, own: Side, opposite: nat, cache: nat, call: Call, e: Effect)
    requires Ready(cap, own, opposite, cache, call) && MayPublish(own, call.pc)
    requires call.pc.Working? || call.pc.PubTail? || call.pc.PubHead?
    requires e == Turn(cap, own, opposite, cache, call)
    ensures PublishStep(own, call.pc, e)
  {
    if call.pc.Working? && !own.relaxed {
      assert own.published == own.starts[call.pc.k];
    }
    assert |own.starts| == Made(own) + 1;
    hide W, Increasing;
  }

  lemma CasStep(cap: nat, own: Side, opposite: nat, cache: nat, call: Call, e: Effect)
    requires Ready(cap, own, opposite, cache, call) && MayPublish(own, call.pc) && call.pc.PubCas?
    requires e == Turn(cap, own, opposite, cache, call)
    ensures PublishStep(own, call.pc, e)
  {
    hide SideOk, W, Pack, NextTail, UnpackPos;
  }

  lemma MirrorStep(cap: nat, own: Side, opposite: nat, cache: nat, call: Call, e: Effect)
    requires Ready(cap, own, opposite, cache, call) && MayPublish(own, call.pc) && Raises(call.pc)
    requires e == Turn(cap, own, opposite, cache, call)
    ensures PublishStep(own, call.pc, e)
  {
    if call.pc.RaiseCas? {
      Lap(call.pc.m, own.published);
    }
    hide SideOk, W, Sub32;
  }

  lemma PublishingStep(cap: nat, own: Side, opposite: nat, cache: nat, call: Call, e: Effect)
    requires Ready(cap, own, opposite, cache, call) && MayPublish(own, call.pc) && Publishing(call.pc)
    requires e == Turn(cap, own, opposite, cache, call)
    ensures PublishStep(own, call.pc, e)
  {
    hide Ready, MayPublish, Turn, PublishStep;
    if Raises(call.pc) {
      MirrorStep(cap, own, opposite, cache, call, e);
    } else if call.pc.PubCas? {
      CasStep(cap, own, opposite, cache, call, e);
    } else {
      WorkStep(cap, own, opposite, cache, call, e);
    }
  }

  ghost predicate CanPublish(s: State, t: nat) {
    && t in s.calls && s.cap < CYCLE && s.calls[t].requested <= s.cap && Publishing(s.calls[t].pc)
    && MayPublish(Own(s, s.calls[t].producer), s.calls[t].pc)
  }

  lemma PublishEnabled(s: State, t: nat)
    requires CanPublish(s, t)
    ensures Enabled(s, Go(t))
  {
  }

  /** Done with the reservation counted, or nearer to it. */
  ghost predicate PublishedIn(s: State, t: nat, s': State) {
    && t in s.calls && t in s'.calls && s'.calls[t].producer == s.calls[t].producer
    && PublishStep(Own(s, s.calls[t].producer), s.calls[t].pc,
                   Effect(Own(s', s.calls[t].producer), 0, s'.calls[t].pc))
    && (Publishing(s'.calls[t].pc) && MayPublish(Own(s', s.calls[t].producer), s'.calls[t].pc) ==> CanPublish(s', t))
  }

  lemma LeftPublished(s: State, t: nat, s': State, e: Effect)
    requires Left(s, t, s', e) && CanPublish(s, t) && PublishStep(Own(s, s.calls[t].producer), s.calls[t].pc, e)
    ensures PublishedIn(s, t, s')
  {
    hide MayPublish, Publishing, Way, Works;
  }

  lemma PublishGo(s: State, t: nat, s': State)
    requires Inv(s) && CanPublish(s, t) && Enabled(s, Go(t)) && s' == Apply(s, Go(t))
    ensures Inv(s') && PublishedIn(s, t, s')
    ensures Own(s, s.calls[t].producer).counted <= Own(s', s.calls[t].producer).counted
  {
    var c := s.calls[t];
    var own, opposite, cache := Own(s, c.producer), Own(s, !c.producer).published, Cache(s, c.producer);
    var e := Turn(s.cap, own, opposite, cache, c);
    assert MayPublish(own, c.pc) && Publishing(c.pc);
    hide *;
    ReadyHere(s, t);
    GoInv(s, t, s');
    GrewCounted(own, Own(s', c.producer));
    GoLeft(s, t, s');
    PublishingStep(s.cap, own, opposite, cache, c, e);
    LeftPublished(s, t, s', e);
  }

  lemma GrewCounted(a: Side, b: Side)
    requires Grew(a, b)
    ensures a.counted <= b.counted
  {
  }

  /** The call has finished, and what it worked on is counted. */
  ghost predicate Published(s: State, t: nat, producer: bool, pc: PC) {
    t in s.calls && s.calls[t].pc == Finished(1) && (Works(pc) ==> pc.k in Own(s, producer).counted)
  }

  lemma {:induction false} PublishesFrom(s: State, t: nat) returns (k: nat)
    requires Inv(s) && CanPublish(s, t) && t in s.calls
    ensures Published(After(s, t, k), t, s.calls[t].producer, s.calls[t].pc)
    ensures Own(s, s.calls[t].producer).counted <= Own(After(s, t, k), s.calls[t].producer).counted
    decreases Way(Own(s, s.calls[t].producer), s.calls[t].pc)
  {
    hide Inv, CanPublish, Enabled, Way, After, Apply, MayPublish, Own, Works, Publishing;
    PublishEnabled(s, t);
    var s' := Apply(s, Go(t));
    PublishGo(s, t, s');
    var rest := 0;
    if s'.calls[t].pc == Finished(1) {
      NoSteps(s', t);
      FinishedWorks();
    } else {
      rest := PublishesFrom(s', t);
    }
    k := rest + 1;
    MoreSteps(s, t, rest);
  }

  lemma FinishedWorks()
    ensures !Works(Finished(1))
  {
  }

  /** A call that has reserved publishes if it runs alone, on a relaxed side always, and on an ordered side when it is
      in turn. */
  lemma AlonePublishes(run: seq<State>, i: nat, t: nat) returns (k: nat)
    requires Run(run) && i < |run| && t in run[i].calls && CanPublish(run[i], t)
    ensures Published(After(run[i], t, k), t, run[i].calls[t].producer, run[i].calls[t].pc)
  {
    hide Inv, CanPublish, After, Published;
    RunInv(run, i);
    k := PublishesFrom(run[i], t);
  }

  /** While an ordered side has reservations that are not published, the call in turn can publish. */
  lemma SomeoneInTurn(run: seq<State>, i: nat, producer: bool) returns (t: nat)
    requires Run(run) && i < |run| && !Own(run[i], producer).relaxed
    requires |Own(run[i], producer).counted| < Made(Own(run[i], producer))
    ensures CanPublish(run[i], t) && run[i].calls[t].producer == producer
    ensures run[i].calls[t].pc == Working(|Own(run[i], producer).counted|)
  {
    RunInv(run, i);
    t := InTurn(run[i], producer);
  }

  lemma InTurn(s: State, producer: bool) returns (t: nat)
    requires Inv(s) && !Own(s, producer).relaxed && |Own(s, producer).counted| < Made(Own(s, producer))
    ensures CanPublish(s, t) && s.calls[t].producer == producer
    ensures s.calls[t].pc == Working(|Own(s, producer).counted|)
  {
    var own := Own(s, producer);
    var k := |own.counted|;
    assert HeadsOk(s) && CallsOk(s) && WorkOk(s);
    assert SideOk(own);
    FirstUncounted(own);
    hide SideOk, HeadsOk, MirrorOk;
    assert Worked(s, producer, k);
    t :| t in s.calls && s.calls[t].producer == producer && Works(s.calls[t].pc) && s.calls[t].pc.k == k;
    CapOk(s);
    assert CallOk(s.cap, Own(s, producer), Own(s, !producer).published, s.calls[t]);
  }

  lemma FirstUncounted(own: Side)
    requires SideOk(own) && !own.relaxed
    ensures |own.counted| !in own.counted
  {
    var n := |own.counted|;
    assert Below(n) <= own.counted;
    assert |own.counted - Below(n)| == 0;
    assert n !in own.counted - Below(n);
  }
}
