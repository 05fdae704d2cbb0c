/** The invariant of whole runs of the dpdk queue, and what it promises. */
module DpdkTheorems {
  import opened Words32
  import opened DpdkRing
  import opened DpdkInvariant

  // ---------------------------------------------------------------------------------------
  // What a turn does to its own side and to its call

  /** Where a side stands against the other: its head is within its lead of what the other published,
      and not more than the capacity short of it. */
  ghost predicate Standing(cap: nat, producer: bool, own: Side, opposite: nat) {
    && 0 < cap <= 0x4000_0000 && SideOk(own)
    && Head(own) <= opposite + Lead(cap, producer) <= Head(own) + cap
  }

  lemma StandingOf(s: State, producer: bool)
    requires HeadsOk(s)
    ensures Standing(s.cap, producer, Own(s, producer), Own(s, !producer).published)
  {
  }

  /** Admission on wrapped words is admission on true positions. */
  lemma GrantedFits(cap: nat, own: Side, opposite: nat, call: Call, h: nat, p: nat)
    requires Standing(cap, call.producer, own, opposite) && h == Head(own)
    requires Observed(cap, Lead(cap, call.producer), own, opposite, h, p)
    ensures h + Granted(cap, call, h, p) <= opposite + Lead(cap, call.producer)
  {
    AdmissionExact(cap, Lead(cap, call.producer), p, h);
    hide W, Room;
  }

  lemma ReserveExtends(own: Side, end: nat)
    requires SideOk(own) && end > Head(own)
    ensures SideOk(own.(starts := own.starts + [end])) && Grew(own, own.(starts := own.starts + [end]))
    ensures Made(own.(starts := own.starts + [end])) == Made(own) + 1 && Head(own.(starts := own.starts + [end])) == end
    ensures Made(own) !in own.counted
  {
    var own' := own.(starts := own.starts + [end]);
    NotAllCounted(own);
    assert Head(own') == end && Made(own') == Made(own) + 1;
    forall i | 0 <= i < Made(own') && own'.starts[i] < own'.tail ensures i in own'.counted {
      assert i < Made(own) ==> own'.starts[i] == own.starts[i];
    }
  }

  lemma NotAllCounted(own: Side)
    requires SideOk(own)
    ensures |own.counted| <= Made(own)
  {
    assert own.counted <= Below(Made(own));
    assert |Below(Made(own)) - own.counted| == Made(own) - |own.counted|;
  }

  lemma ReserveExact(own: Side, h: nat, c: nat)
    requires SideOk(own) && HeadSeen(own, h, c) && Head(own) < h + CYCLE && SameHead(own, h, c)
    ensures h == Head(own)
  {
    assert h <= Head(own);
    Lap(h, Head(own));
  }

  lemma ReservedTurn(cap: nat, own: Side, opposite: nat, cache: nat, call: Call, e: Effect)
    requires Standing(cap, call.producer, own, opposite) && call.pc.Reserve?
    requires CallOk(cap, own, opposite, call) && Within(cap, own, opposite, cache, call)
    requires e == ReserveTurn(cap, own, cache, call, call.pc.h, call.pc.c, call.pc.p) && e.pc.Working?
    ensures SideOk(e.own) && Grew(own, e.own) && e.cache == cache
    ensures Head(e.own) <= opposite + Lead(cap, call.producer)
    ensures e.own == own.(starts := e.own.starts) && e.pc.k == Made(own) && Made(e.own) == Made(own) + 1
    ensures Made(own) !in own.counted
  {
    var h, c, p := call.pc.h, call.pc.c, call.pc.p;
    ReserveExact(own, h, c);
    GrantedFits(cap, own, opposite, call, h, p);
    ReserveExtends(own, h + Granted(cap, call, h, p));
    hide Granted, SameHead, Stale, SideOk, Grew, Made, Head;
  }

  // ---------------------------------------------------------------------------------------
  // Publication

  lemma StartsOrder(own: Side, i: nat, j: nat)
    requires SideOk(own) && i < |own.starts| && j < |own.starts|
    ensures own.starts[i] < own.starts[j] <==> i < j
    ensures own.starts[i] == own.starts[j] <==> i == j
  {
  }

  /** The first reservation of an ordered side that has not published is the one in turn. */
  lemma OrderedTurn(own: Side, cap: nat, k: nat, own': Side)
    requires SideOk(own) && !own.relaxed && k < Made(own) && k !in own.counted
    requires Head(own) - own.published <= cap < CYCLE && W(own.published) == W(own.starts[k])
    requires own' == own.(counted := own.counted + {k}, tail := own.starts[k + 1], published := own.starts[k + 1])
    ensures k == |own.counted| && SideOk(own') && Grew(own, own') && own'.published <= Head(own)
  {
    assert |own.counted| <= k by { assert forall i | 0 <= i < |own.counted| :: i in own.counted; }
    assert own.published <= own.starts[k] <= Head(own);
    Lap(own.published, own.starts[k]);
    StartsOrder(own, k, |own.counted|);
    hide W;
    OrderedNext(own, own');
  }

  lemma OrderedNext(own: Side, own': Side)
    requires SideOk(own) && !own.relaxed && |own.counted| < Made(own)
    requires |own.counted| !in own.counted
    requires
      var k := |own.counted|;
      own' == own.(counted := own.counted + {k}, tail := own.starts[k + 1], published := own.starts[k + 1])
    ensures SideOk(own') && Grew(own, own') && own'.published <= Head(own)
  {
    var k := |own.counted|;
    assert own.starts[k] < own.starts[k + 1];
    forall i | 0 <= i < Made(own) && own.starts[i] < own'.tail ensures i in own'.counted {
      StartsOrder(own, i, k + 1);
    }
    assert own.starts[k + 1] <= Head(own);
  }

  /** The tail update: when the counters meet, everything reserved up to the loaded head has finished,
      because the tail was loaded first. */
  lemma TailMeets(own: Side, k: nat, hc: nat, hp: nat, own': Side)
    requires SideOk(own) && own.relaxed && k < hc <= Made(own) && own.starts[hc] == hp && k !in own.counted
    requires forall i | i in own.counted :: i < hc
    requires own' == own.(counted := own.counted + {k}, tail := if |own.counted| + 1 == hc then hp else own.tail)
    ensures SideOk(own') && Grew(own, own')
  {
    assert |own'.counted| == |own.counted| + 1;
    NotAllCounted(own);
    if |own.counted| + 1 == hc {
      Full(own'.counted, hc);
      assert own.tail <= hp by { TailBelow(own, k, hc); }
      forall i | 0 <= i < Made(own) && own.starts[i] < hp ensures i in own'.counted {
        StartsOrder(own, i, hc);
      }
      assert hp <= Head(own);
    } else {
      Uncounted(own, own', hc);
    }
  }

  /** The tail is at or below the start of every unfinished reservation. */
  lemma TailBelow(own: Side, k: nat, hc: nat)
    requires SideOk(own) && k < hc <= Made(own) && k !in own.counted
    ensures own.tail <= own.starts[k] <= own.starts[hc]
  {
  }

  lemma Uncounted(own: Side, own': Side, hc: nat)
    requires SideOk(own) && hc <= Made(own) && (forall i | i in own'.counted :: i < hc) && |own'.counted| != hc
    requires own'.starts == own.starts
    ensures |own'.counted| < Made(own')
  {
    assert own'.counted <= Below(hc);
    assert |Below(hc) - own'.counted| == hc - |own'.counted|;
  }

  lemma First(a: set<nat>, k: nat) returns (i: nat)
    requires k !in a
    ensures i <= k && i !in a && forall j | 0 <= j < i :: j in a
  {
    i := 0;
    while i in a
      invariant i <= k && forall j | 0 <= j < i :: j in a
      decreases k - i
    {
      i := i + 1;
    }
  }

  lemma {:induction false} StartsGap(own: Side, i: nat, j: nat)
    requires SideOk(own) && i <= j < |own.starts|
    ensures own.starts[j] - own.starts[i] >= j - i
  {
    if i < j {
      StartsGap(own, i, j - 1);
    }
  }

  /** Unfinished reservations are no more than the positions past the tail. */
  lemma FewUnfinished(own: Side, k: nat, hc: nat)
    requires SideOk(own) && k < hc <= Made(own) && k !in own.counted && forall i | i in own.counted :: i < hc
    ensures |own.counted| < hc <= |own.counted| + Head(own) - own.tail
  {
    var first := First(own.counted, k);
    assert Below(first) <= own.counted;
    assert |own.counted - Below(first)| == |own.counted| - first;
    StartsGap(own, first, Made(own));
    TailBelow(own, first, hc);
    assert own.counted + {k} <= Below(hc);
    assert |Below(hc) - (own.counted + {k})| == hc - |own.counted + {k}|;
  }

  /** The relaxed tail update, decided on words, does what it does on numbers. */
  lemma RelaxedTurn(cap: nat, own: Side, cache: nat, k: nat, cnt: nat, pos: nat, hc: nat, hp: nat, e: Effect)
    requires SideOk(own) && own.relaxed && k < hc <= Made(own) && own.starts[hc] == hp && k !in own.counted
    requires cnt <= |own.counted| < cnt + CYCLE && cap <= 0x4000_0000 && Head(own) - own.tail <= cap
    requires |own.counted| == cnt ==> pos == own.tail && forall i | i in own.counted :: i < hc
    requires e == TailTurn(own, cache, k, cnt, pos, hc, hp)
    ensures e.cache == cache && TailEffect(own, k, e) && SideOk(e.own) && Grew(own, e.own)
  {
    GrewReflexive(own);
    PackEqual(W(own.tail), W(|own.counted|), W(pos), W(cnt));
    Lap(cnt, |own.counted|);
    if Pack(W(own.tail), W(|own.counted|)) == Pack(W(pos), W(cnt)) {
      FewUnfinished(own, k, hc);
      NextTailExact(pos, cnt, hp, hc);
      Lap(cnt + 1, hc);
      var moved := if cnt + 1 == hc then hp else pos;
      PackRoundTrip(W(moved), W(cnt + 1));
      TailMeets(own, k, hc, hp, own.(counted := own.counted + {k}, tail := moved));
      assert moved <= Head(own);
      Lap(pos, moved);
      hide W, Pack, UnpackPos, NextTail, SideOk, Grew;
    }
  }

  lemma PackEqual(a: U32, b: U32, c: U32, d: U32)
    ensures Pack(a, b) == Pack(c, d) <==> a == c && b == d
  {
    PackRoundTrip(a, b);
    PackRoundTrip(c, d);
  }

  // ---------------------------------------------------------------------------------------
  // What every turn keeps

  /** A turn counts no reservation but its own, and leaves its own with itself until it is counted. */
  ghost predicate WorkTurn(own: Side, call: Call, e: Effect) {
    && (forall i | i in e.own.counted :: i in own.counted || (Works(call.pc) && i == call.pc.k))
    && (Works(e.pc) ==> if Works(call.pc) then e.pc.k == call.pc.k else e.pc.k == Made(own))
    && (forall k | 0 <= k < Made(e.own) && k !in e.own.counted ::
          (Works(e.pc) && e.pc.k == k) || (k < Made(own) && k !in own.counted && !(Works(call.pc) && call.pc.k == k)))
  }

  /** A turn that leaves the mirror behind owes the raise itself, or leaves it with who owed it. */
  ghost predicate MirrorTurn(own: Side, call: Call, e: Effect) {
    e.own.published < e.own.tail ==>
      || (Raises(e.pc) && e.pc.to == e.own.tail)
      || (e.own.tail == own.tail && own.published < own.tail && !(Raises(call.pc) && call.pc.to == own.tail))
  }

  ghost predicate TurnOk(cap: nat, own: Side, opposite: nat, call: Call, e: Effect) {
    && SideOk(e.own) && Grew(own, e.own) && Head(e.own) <= opposite + Lead(cap, call.producer) && e.cache <= opposite
    && CallOk(cap, e.own, opposite, call.(pc := e.pc)) && WorkTurn(own, call, e) && MirrorTurn(own, call, e)
  }

  ghost predicate Ready(cap: nat, own: Side, opposite: nat, cache: nat, call: Call) {
    && Standing(cap, call.producer, own, opposite) && Head(own) - own.published <= cap
    && cache <= opposite && call.requested <= cap
    && CallOk(cap, own, opposite, call) && Within(cap, own, opposite, cache, call)
  }

  lemma ScanTurn(cap: nat, own: Side, opposite: nat, cache: nat, call: Call, e: Effect)
    requires Ready(cap, own, opposite, cache, call)
    requires call.pc.Start? || call.pc.GotTail? || call.pc.GotHead? || call.pc.Refresh? || call.pc.Keep? || call.pc.Finished?
    requires e == Turn(cap, own, opposite, cache, call)
    ensures TurnOk(cap, own, opposite, call, e)
  {
    GrewReflexive(own);
    assert |own.starts| > 0;
    hide NeedsFresh, W, Sub32, SideOk, Grew;
  }

  lemma ReserveTurnOk(cap: nat, own: Side, opposite: nat, cache: nat, call: Call, e: Effect)
    requires Ready(cap, own, opposite, cache, call) && call.pc.Reserve? && e == Turn(cap, own, opposite, cache, call)
    ensures TurnOk(cap, own, opposite, call, e)
  {
    ReserveShape(cap, own, opposite, cache, call, e);
    if e.pc.Working? {
      ReservedTurn(cap, own, opposite, cache, call, e);
    }
    hide ReserveTurn, Turn, Within, SideOk, Grew, Head, Made;
    GrewReflexive(own);
  }

  /** A reservation is made, or nothing changes. */
  lemma ReserveShape(cap: nat, own: Side, opposite: nat, cache: nat, call: Call, e: Effect)
    requires call.requested <= cap < CYCLE && call.pc.Reserve? && e == Turn(cap, own, opposite, cache, call)
    ensures e == ReserveTurn(cap, own, cache, call, call.pc.h, call.pc.c, call.pc.p)
    ensures e.pc.Working? || e == Effect(own, cache, Start) || e == Effect(own, cache, Finished(0))
  {
    hide Granted, SameHead, Stale, Head, Made;
  }

  lemma WorkingTurnOk(cap: nat, own: Side, opposite: nat, cache: nat, call: Call, e: Effect)
    requires Ready(cap, own, opposite, cache, call) && call.pc.Working? && e == Turn(cap, own, opposite, cache, call)
    ensures TurnOk(cap, own, opposite, call, e)
  {
    WorkingReady(cap, own, opposite, cache, call);
    hide *;
    WorkingShape(cap, own, opposite, cache, call, e);
    if e.pc.Finished? {
      OrderedTurn(own, cap, call.pc.k, e.own);
      PublishedParts(cap, own, opposite, cache, call, e);
    } else {
      StillWorking(cap, own, opposite, cache, call, e);
    }
  }

  lemma WorkingReady(cap: nat, own: Side, opposite: nat, cache: nat, call: Call)
    requires Ready(cap, own, opposite, cache, call) && call.pc.Working?
    ensures SideOk(own) && Head(own) <= opposite + Lead(cap, call.producer) && cache <= opposite
    ensures call.requested <= cap < CYCLE && Head(own) - own.published <= cap
    ensures call.pc.k < Made(own) < |own.starts| && call.pc.k !in own.counted
  {
    hide Done, InOrder, Increasing;
  }

  lemma StillWorking(cap: nat, own: Side, opposite: nat, cache: nat, call: Call, e: Effect)
    requires SideOk(own) && Head(own) <= opposite + Lead(cap, call.producer) && cache <= opposite
    requires call.pc.Working? && call.pc.k < Made(own) && call.pc.k !in own.counted
    requires e == Effect(own, cache, Working(call.pc.k)) || (own.relaxed && e == Effect(own, cache, PubTail(call.pc.k)))
    ensures TurnOk(cap, own, opposite, call, e)
  {
    GrewReflexive(own);
    hide SideOk, Grew, Head;
  }

  lemma PublishedParts(cap: nat, own: Side, opposite: nat, cache: nat, call: Call, e: Effect)
    requires SideOk(e.own) && Grew(own, e.own) && Head(own) <= opposite + Lead(cap, call.producer) && cache <= opposite
    requires call.pc.Working? && call.pc.k < Made(own) < |own.starts| && call.pc.k !in own.counted
    requires e == PublishTurn(own, cache, call.pc.k, own.starts[call.pc.k + 1])
    ensures TurnOk(cap, own, opposite, call, e)
  {
    hide SideOk, Grew;
  }

  /** An ordered call publishes when it is in turn and waits until then; a relaxed call goes on to the tail. */
  lemma WorkingShape(cap: nat, own: Side, opposite: nat, cache: nat, call: Call, e: Effect)
    requires call.requested <= cap < CYCLE && call.pc.Working? && call.pc.k < Made(own) < |own.starts|
    requires e == Turn(cap, own, opposite, cache, call)
    ensures
      var k := call.pc.k;
      || (own.relaxed && e == Effect(own, cache, PubTail(k)))
      || (!own.relaxed && e == Effect(own, cache, Working(k)))
      || (&& !own.relaxed && W(own.published) == W(own.starts[k]) && e.pc == Finished(1)
          && e == PublishTurn(own, cache, k, own.starts[k + 1])
          && e.own == own.(counted := own.counted + {k}, tail := own.starts[k + 1], published := own.starts[k + 1]))
  {
    hide W;
  }

  lemma PublishTurnOk(cap: nat, own: Side, opposite: nat, cache: nat, call: Call, e: Effect)
    requires Ready(cap, own, opposite, cache, call) && (call.pc.PubTail? || call.pc.PubHead?)
    requires e == Turn(cap, own, opposite, cache, call)
    ensures TurnOk(cap, own, opposite, call, e)
  {
    GrewReflexive(own);
  }

  /** A tail update counted its own reservation, or changed nothing. */
  ghost predicate TailEffect(own: Side, k: nat, e: Effect) {
    || (e.pc == PubTail(k) && e.own == own)
    || (&& e.own.counted == own.counted + {k} && e.own.starts == own.starts && e.own.published == own.published
        && e.own.relaxed == own.relaxed
        && ((e.pc == Finished(1) && e.own.tail == own.tail) || e.pc == Raise(e.own.tail)))
  }

  lemma TailTurnOk(cap: nat, own: Side, opposite: nat, cache: nat, call: Call, e: Effect)
    requires Ready(cap, own, opposite, cache, call) && call.pc.PubCas? && e == Turn(cap, own, opposite, cache, call)
    ensures TurnOk(cap, own, opposite, call, e)
  {
    var k, cnt, pos, hc, hp := call.pc.k, call.pc.cnt, call.pc.pos, call.pc.hc, call.pc.hp;
    assert Head(own) - own.tail <= cap;
    GrewReflexive(own);
    RelaxedTurn(cap, own, cache, k, cnt, pos, hc, hp, e);
    hide *;
    ReadyParts(cap, own, opposite, cache, call);
    TailTurnParts(cap, own, opposite, call, e);
  }

  lemma ReadyParts(cap: nat, own: Side, opposite: nat, cache: nat, call: Call)
    requires Ready(cap, own, opposite, cache, call) && call.pc.PubCas?
    ensures Head(own) <= opposite + Lead(cap, call.producer) && cache <= opposite
    ensures call.pc.k < Made(own) && call.pc.k !in own.counted && own.relaxed
  {
  }

  lemma TailTurnParts(cap: nat, own: Side, opposite: nat, call: Call, e: Effect)
    requires call.pc.PubCas? && call.pc.k < Made(own) && call.pc.k !in own.counted && own.relaxed
    requires Head(own) <= opposite + Lead(cap, call.producer) && e.cache <= opposite
    requires SideOk(e.own) && Grew(own, e.own) && TailEffect(own, call.pc.k, e)
    ensures TurnOk(cap, own, opposite, call, e)
  {
    hide SideOk, Grew;
  }

  lemma RaiseTurnOk(cap: nat, own: Side, opposite: nat, cache: nat, call: Call, e: Effect)
    requires Ready(cap, own, opposite, cache, call) && Raises(call.pc) && e == Turn(cap, own, opposite, cache, call)
    ensures TurnOk(cap, own, opposite, call, e)
  {
    GrewReflexive(own);
    if call.pc.RaiseTail? && own.tail - call.pc.m < CYCLE {
      Lap(call.pc.m, own.tail);
    }
    if call.pc.RaiseCas? {
      Lap(call.pc.m, own.published);
    }
    hide W, Sub32;
  }

  lemma TurnKeeps(cap: nat, own: Side, opposite: nat, cache: nat, call: Call, e: Effect)
    requires Ready(cap, own, opposite, cache, call) && e == Turn(cap, own, opposite, cache, call)
    ensures TurnOk(cap, own, opposite, call, e)
  {
    hide *;
    match call.pc
    case Reserve(_, _, _) => ReserveTurnOk(cap, own, opposite, cache, call, e);
    case Working(_) => WorkingTurnOk(cap, own, opposite, cache, call, e);
    case PubTail(_) => PublishTurnOk(cap, own, opposite, cache, call, e);
    case PubHead(_, _, _) => PublishTurnOk(cap, own, opposite, cache, call, e);
    case PubCas(_, _, _, _, _) => TailTurnOk(cap, own, opposite, cache, call, e);
    case Raise(_) => RaisesHere(call); RaiseTurnOk(cap, own, opposite, cache, call, e);
    case RaiseTail(_, _) => RaisesHere(call); RaiseTurnOk(cap, own, opposite, cache, call, e);
    case RaiseCas(_, _, _) => RaisesHere(call); RaiseTurnOk(cap, own, opposite, cache, call, e);
    case _ => ScanTurn(cap, own, opposite, cache, call, e);
  }

  lemma RaisesHere(call: Call)
    requires call.pc.Raise? || call.pc.RaiseTail? || call.pc.RaiseCas?
    ensures Raises(call.pc)
  {
  }

  // ---------------------------------------------------------------------------------------
  // Whole states

  lemma ReadyHere(s: State, t: nat)
    requires Inv(s) && Enabled(s, Go(t))
    ensures
      var c := s.calls[t];
      Ready(s.cap, Own(s, c.producer), Own(s, !c.producer).published, Cache(s, c.producer), c)
  {
    StandingOf(s, s.calls[t].producer);
    MirrorNear(s, s.calls[t].producer);
    hide Standing, CallOk, SideOk, Within;
  }

  lemma PlacedHeads(s: State, t: nat, call: Call, e: Effect, s': State)
    requires HeadsOk(s) && s' == Placed(s, t, call, e)
    requires TurnOk(s.cap, Own(s, call.producer), Own(s, !call.producer).published, call, e)
    ensures HeadsOk(s')
    ensures Own(s', call.producer) == e.own && Own(s', !call.producer) == Own(s, !call.producer)
    ensures forall producer: bool :: Grew(Own(s, producer), Own(s', producer))
  {
    GrewReflexive(Own(s, !call.producer));
    hide SideOk, CallOk, WorkTurn, MirrorTurn;
  }

  lemma PlacedCalls(s: State, t: nat, call: Call, e: Effect, s': State)
    requires Inv(s) && t in s.calls && s.calls[t] == call && s' == Placed(s, t, call, e) && HeadsOk(s')
    requires CallOk(s.cap, e.own, Own(s, !call.producer).published, call.(pc := e.pc))
    requires WorkTurn(Own(s, call.producer), call, e)
    requires forall producer: bool :: Grew(Own(s, producer), Own(s', producer))
    ensures CallsOk(s')
  {
    forall u | u in s'.calls
      ensures s'.calls[u].requested <= s'.cap
        && CallOk(s'.cap, Own(s', s'.calls[u].producer), Own(s', !s'.calls[u].producer).published, s'.calls[u])
    {
      hide CallOk, SideOk, Grew;
      if u != t {
        UncountedStays(s, t, call, e, s', u);
        OtherCall(s, s', u);
      }
    }
  }

  lemma OtherCall(s: State, s': State, u: nat)
    requires CallsOk(s) && HeadsOk(s) && HeadsOk(s') && s'.cap == s.cap
    requires u in s.calls && u in s'.calls && s'.calls[u] == s.calls[u]
    requires forall producer: bool :: Grew(Own(s, producer), Own(s', producer))
    requires Works(s.calls[u].pc) ==> s.calls[u].pc.k !in Own(s', s.calls[u].producer).counted
    ensures CallOk(s'.cap, Own(s', s'.calls[u].producer), Own(s', !s'.calls[u].producer).published, s'.calls[u])
  {
    hide CallOk, SideOk, Grew, Works;
    var c := s.calls[u];
    var own, own', opp, opp' := Own(s, c.producer), Own(s', c.producer), Own(s, !c.producer), Own(s', !c.producer);
    assert Grew(own, own') && Grew(opp, opp');
    GrewPublished(opp, opp');
    SidesOf(s);
    SidesOf(s');
    CallStable(s.cap, own, opp.published, own', opp'.published, c);
  }

  lemma SidesOf(s: State)
    requires HeadsOk(s)
    ensures forall producer: bool :: SideOk(Own(s, producer))
  {
  }

  lemma GrewPublished(s: Side, s': Side)
    requires Grew(s, s')
    ensures s.published <= s'.published
  {
  }

  lemma UncountedStays(s: State, t: nat, call: Call, e: Effect, s': State, u: nat)
    requires CallsOk(s) && WorkOk(s) && t in s.calls && s.calls[t] == call && s' == Placed(s, t, call, e)
    requires WorkTurn(Own(s, call.producer), call, e)
    requires u in s.calls && u != t
    ensures Works(s.calls[u].pc) ==> s.calls[u].pc.k !in Own(s', s.calls[u].producer).counted
  {
  }

  lemma PlacedWork(s: State, t: nat, call: Call, e: Effect, s': State)
    requires CallsOk(s) && WorkOk(s) && t in s.calls && s.calls[t] == call && s' == Placed(s, t, call, e)
    requires WorkTurn(Own(s, call.producer), call, e)
    ensures WorkOk(s')
  {
    forall a, b | a in s'.calls && b in s'.calls && a != b && Works(s'.calls[a].pc) && Works(s'.calls[b].pc)
                  && s'.calls[a].producer == s'.calls[b].producer
      ensures s'.calls[a].pc.k != s'.calls[b].pc.k
    {
      assert a != t ==> s'.calls[a] == s.calls[a];
      assert b != t ==> s'.calls[b] == s.calls[b];
    }
    forall producer: bool, k: nat | k < Made(Own(s', producer)) && k !in Own(s', producer).counted
      ensures Worked(s', producer, k)
    {
      WorkedStays(s, t, call, e, s', producer, k);
    }
  }

  lemma WorkedStays(s: State, t: nat, call: Call, e: Effect, s': State, producer: bool, k: nat)
    requires WorkOk(s) && t in s.calls && s.calls[t] == call && s' == Placed(s, t, call, e)
    requires WorkTurn(Own(s, call.producer), call, e)
    requires k < Made(Own(s', producer)) && k !in Own(s', producer).counted
    ensures Worked(s', producer, k)
  {
    if producer == call.producer && Works(e.pc) && e.pc.k == k {
      assert s'.calls[t].pc == e.pc;
    } else {
      assert Worked(s, producer, k);
      var u :| u in s.calls && s.calls[u].producer == producer && Works(s.calls[u].pc) && s.calls[u].pc.k == k;
      assert s'.calls[u] == s.calls[u];
    }
  }

  lemma PlacedMirror(s: State, t: nat, call: Call, e: Effect, s': State)
    requires MirrorOk(s) && t in s.calls && s.calls[t] == call && s' == Placed(s, t, call, e)
    requires MirrorTurn(Own(s, call.producer), call, e)
    ensures MirrorOk(s')
  {
    forall producer: bool | Own(s', producer).published < Own(s', producer).tail
      ensures Owed(s', producer, Own(s', producer).tail)
    {
      var to := Own(s', producer).tail;
      if producer == call.producer && Raises(e.pc) && e.pc.to == to {
        assert s'.calls[t].pc == e.pc;
      } else {
        assert Own(s, producer).tail == to && Own(s, producer).published < to;
        assert Owed(s, producer, to);
        var u :| u in s.calls && s.calls[u].producer == producer && Raises(s.calls[u].pc) && s.calls[u].pc.to == to;
        assert s'.calls[u] == s.calls[u];
      }
    }
  }

  lemma GoInv(s: State, t: nat, s': State)
    requires Inv(s) && Enabled(s, Go(t)) && s' == Apply(s, Go(t))
    ensures Inv(s') && forall producer: bool :: Grew(Own(s, producer), Own(s', producer))
  {
    var c := s.calls[t];
    var own, opposite, cache := Own(s, c.producer), Own(s, !c.producer).published, Cache(s, c.producer);
    var e := Turn(s.cap, own, opposite, cache, c);
    ReadyHere(s, t);
    TurnKeeps(s.cap, own, opposite, cache, c, e);
    assert WorkTurn(own, c, e) && MirrorTurn(own, c, e) && CallOk(s.cap, e.own, opposite, c.(pc := e.pc));
    hide TurnOk, Turn, Ready, HeadsOk, CallsOk, WorkOk, MirrorOk, WorkTurn, MirrorTurn, Placed, CallOk;
    PlacedHeads(s, t, c, e, s');
    PlacedCalls(s, t, c, e, s');
    PlacedWork(s, t, c, e, s');
    PlacedMirror(s, t, c, e, s');
  }

  /** Beginning and ending calls touch neither side. */
  lemma EdgeInv(s: State, x: Action, s': State)
    requires Inv(s) && !x.Go? && Enabled(s, x) && s' == Apply(s, x)
    ensures Inv(s') && forall producer: bool :: Grew(Own(s, producer), Own(s', producer))
  {
    hide SideOk, Grew, WorkOk, MirrorOk, CallsOk;
    GrewReflexive(s.prod);
    GrewReflexive(s.cons);
    assert s'.prod == s.prod && s'.cons == s.cons && s'.cap == s.cap;
    assert forall u | u in s.calls && (Works(s.calls[u].pc) || Raises(s.calls[u].pc)) ::
      u in s'.calls && s'.calls[u] == s.calls[u];
    EdgeCalls(s, x, s');
    EdgeWork(s, x, s');
    EdgeMirror(s, s');
  }

  lemma EdgeCalls(s: State, x: Action, s': State)
    requires CallsOk(s) && !x.Go? && Enabled(s, x) && s' == Apply(s, x)
    ensures CallsOk(s')
  {
    if x.Begin? {
      assert CallOk(s.cap, Own(s, x.call.producer), Own(s, !x.call.producer).published, x.call);
    }
    hide CallOk;
  }

  lemma EdgeWork(s: State, x: Action, s': State)
    requires WorkOk(s) && !x.Go? && Enabled(s, x) && s' == Apply(s, x)
    requires forall u | u in s.calls && (Works(s.calls[u].pc) || Raises(s.calls[u].pc)) ::
      u in s'.calls && s'.calls[u] == s.calls[u]
    ensures WorkOk(s')
  {
    forall producer: bool, k: nat | k < Made(Own(s', producer)) && k !in Own(s', producer).counted
      ensures Worked(s', producer, k)
    {
      assert Worked(s, producer, k);
      var u :| u in s.calls && s.calls[u].producer == producer && Works(s.calls[u].pc) && s.calls[u].pc.k == k;
      assert s'.calls[u] == s.calls[u];
    }
  }

  lemma EdgeMirror(s: State, s': State)
    requires MirrorOk(s) && s'.prod == s.prod && s'.cons == s.cons
    requires forall u | u in s.calls && (Works(s.calls[u].pc) || Raises(s.calls[u].pc)) ::
      u in s'.calls && s'.calls[u] == s.calls[u]
    ensures MirrorOk(s')
  {
    forall producer: bool | Own(s', producer).published < Own(s', producer).tail
      ensures Owed(s', producer, Own(s', producer).tail)
    {
      var to := Own(s, producer).tail;
      assert Owed(s, producer, to);
      var u :| u in s.calls && s.calls[u].producer == producer && Raises(s.calls[u].pc) && s.calls[u].pc.to == to;
      assert s'.calls[u] == s.calls[u];
    }
  }

  lemma InitInv(s: State)
    requires Init(s)
    ensures Inv(s)
  {
  }

  lemma {:induction false} RunInv(run: seq<State>, i: nat)
    requires Run(run) && i < |run|
    ensures Inv(run[i])
  {
    hide Inv, Init, Enabled, Apply;
    if i == 0 {
      InitInv(run[0]);
    } else {
      RunInv(run, i - 1);
      assert Next(run[i - 1], run[i - 1 + 1]);
      var x :| Enabled(run[i - 1], x) && run[i] == Apply(run[i - 1], x);
      if x.Go? { GoInv(run[i - 1], x.t, run[i]); } else { EdgeInv(run[i - 1], x, run[i]); }
    }
  }

  lemma {:induction false} RunGrew(run: seq<State>, i: nat, j: nat, producer: bool)
    requires Run(run) && i <= j < |run|
    ensures Grew(Own(run[i], producer), Own(run[j], producer))
  {
    hide Inv, Init, Enabled, Apply;
    if i < j {
      RunGrew(run, i, j - 1, producer);
      RunInv(run, j - 1);
      assert Next(run[j - 1], run[j - 1 + 1]);
      var x :| Enabled(run[j - 1], x) && run[j] == Apply(run[j - 1], x);
      if x.Go? { GoInv(run[j - 1], x.t, run[j]); } else { EdgeInv(run[j - 1], x, run[j]); }
    }
  }

  // ---------------------------------------------------------------------------------------
  // Promises

  /** Positions never cross: what a side publishes, its tail and its head, and each head against what the
      other side has published. */
  lemma PositionsOrdered(run: seq<State>, i: nat)
    requires Run(run) && i < |run|
    ensures run[i].cons.published <= Head(run[i].cons) <= run[i].prod.published <= Head(run[i].prod)
      <= run[i].cons.published + run[i].cap
  {
    RunInv(run, i);
  }

  /** Neither the tail nor what the other side reads ever passes an unfinished reservation. */
  lemma NeverPastUnfinished(run: seq<State>, i: nat, producer: bool, k: nat)
    requires Run(run) && i < |run| && k < Made(Own(run[i], producer)) && k !in Own(run[i], producer).counted
    ensures Own(run[i], producer).published <= Own(run[i], producer).tail <= Own(run[i], producer).starts[k]
  {
    RunInv(run, i);
  }

  /** Tails and mirrors only rise. */
  lemma TailsMonotone(run: seq<State>, i: nat, j: nat, producer: bool)
    requires Run(run) && i <= j < |run|
    ensures Own(run[i], producer).tail <= Own(run[j], producer).tail
    ensures Own(run[i], producer).published <= Own(run[j], producer).published
  {
    RunGrew(run, i, j, producer);
  }

  /** With no operation of a side under way, its mirror, tail and head positions are the same. */
  lemma QuiescentMeets(run: seq<State>, i: nat, producer: bool)
    requires Run(run) && i < |run|
    requires forall t | t in run[i].calls && run[i].calls[t].producer == producer ::
      !Works(run[i].calls[t].pc) && !Raises(run[i].calls[t].pc)
    ensures
      var own := Own(run[i], producer);
      own.published == own.tail == Head(own) && |own.counted| == Made(own)
  {
    RunInv(run, i);
    var s := run[i];
    var own := Own(s, producer);
    assert !Owed(s, producer, own.tail);
    forall k | 0 <= k < Made(own) ensures k in own.counted {
      assert !Worked(s, producer, k);
    }
    assert own.counted == Below(Made(own));
  }

  /** An ordered side publishes exactly the start of its first unpublished reservation. */
  lemma OrderedPublishes(run: seq<State>, i: nat, producer: bool)
    requires Run(run) && i < |run| && !Own(run[i], producer).relaxed
    ensures
      var own := Own(run[i], producer);
      && |own.counted| < |own.starts| && own.published == own.starts[|own.counted|]
      && own.counted == Below(|own.counted|)
  {
    RunInv(run, i);
    var own := Own(run[i], producer);
    assert Below(|own.counted|) <= own.counted;
    assert |own.counted - Below(|own.counted|)| == 0;
  }

  /** Wrapping admission refines exact admission: a reservation that succeeds takes no more than the true
      room, and starts at the true head. */
  lemma ReservationFits(run: seq<State>, i: nat, t: nat, e: Effect)
    requires Run(run) && i < |run| && Enabled(run[i], Go(t)) && run[i].calls[t].pc.Reserve?
    requires
      var c := run[i].calls[t];
      e == Turn(run[i].cap, Own(run[i], c.producer), Own(run[i], !c.producer).published, Cache(run[i], c.producer), c)
    requires e.pc.Working?
    ensures
      var c := run[i].calls[t];
      var own, opposite := Own(run[i], c.producer), Own(run[i], !c.producer).published;
      var room := c.pc.p + Lead(run[i].cap, c.producer) - Head(own);
      && Head(own) < Head(e.own) <= opposite + Lead(run[i].cap, c.producer)
      && Head(e.own) - Head(own) == (if c.requested <= room then c.requested else room)
      && (c.fixed ==> Head(e.own) - Head(own) == c.requested)
      && e.own.starts == own.starts + [Head(e.own)]
  {
    RunInv(run, i);
    ReadyHere(run[i], t);
    hide Inv, Ready, ReserveTurn;
    var c := run[i].calls[t];
    var own, opposite, cache := Own(run[i], c.producer), Own(run[i], !c.producer).published, Cache(run[i], c.producer);
    ReserveShape(run[i].cap, own, opposite, cache, c, e);
    ReservedFits(run[i].cap, own, opposite, cache, c, e);
  }

  lemma ReservedFits(cap: nat, own: Side, opposite: nat, cache: nat, call: Call, e: Effect)
    requires Ready(cap, own, opposite, cache, call) && call.pc.Reserve?
    requires e == ReserveTurn(cap, own, cache, call, call.pc.h, call.pc.c, call.pc.p) && e.pc.Working?
    ensures Head(own) < Head(e.own) <= opposite + Lead(cap, call.producer)
    ensures
      var room := call.pc.p + Lead(cap, call.producer) - Head(own);
      Head(e.own) - Head(own) == if call.requested <= room then call.requested else room
    ensures call.fixed ==> Head(e.own) - Head(own) == call.requested
    ensures e.own.starts == own.starts + [Head(e.own)] && call.pc.h == Head(own)
  {
    ReservedTurn(cap, own, opposite, cache, call, e);
    ReserveExact(own, call.pc.h, call.pc.c);
    AdmissionExact(cap, Lead(cap, call.producer), call.pc.p, call.pc.h);
    hide SideOk, Grew, CallOk, Within, SameHead, Room, W;
  }

  /** The distance check never wraps: it compares the true distance between a tail and a later head. */
  lemma DistanceExact(run: seq<State>, i: nat, t: nat)
    requires Run(run) && i < |run| && Enabled(run[i], Go(t)) && run[i].calls[t].pc.GotTail?
    ensures
      var c := run[i].calls[t];
      var head := Head(Own(run[i], c.producer));
      c.pc.t <= head && Sub32(W(head), W(c.pc.t)) == head - c.pc.t
  {
    RunInv(run, i);
    ReadyHere(run[i], t);
    var c := run[i].calls[t];
    Lap(c.pc.t, Head(Own(run[i], c.producer)));
  }
}
