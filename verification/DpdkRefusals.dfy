/** What a call of the dpdk MPMC queue takes and when it may be refused: against what there was to take while it ran. */
module DpdkRefusals {
  import opened Words32
  import opened DpdkRing
  import opened DpdkInvariant
  import opened DpdkTheorems

  /** What there is to take for a side: published values not reserved yet, or free slots. */
  function Free(s: State, producer: bool): int {
    Own(s, !producer).published + Lead(s.cap, producer) - Head(Own(s, producer))
  }

  predicate SameRequest(a: Call, b: Call) {
    a.(pc := Start) == b.(pc := Start)
  }

  /** Call `t` of `run[i]` is under way from `j` on. */
  ghost predicate Since(run: seq<State>, j: nat, i: nat, t: nat) {
    && j <= i < |run|
    && forall k | j <= k <= i :: t in run[k].calls && t in run[i].calls && SameRequest(run[k].calls[t], run[i].calls[t])
  }

  /** While call `t` of `run[i]` was under way, at `j`, there was no more than `count` to take. */
  ghost predicate Met(run: seq<State>, i: nat, t: nat, j: nat, count: int) {
    Since(run, j, i, t) && Free(run[j], run[i].calls[t].producer) <= count
  }

  /** The call holds a head it has loaded and not tried to move yet. */
  predicate Holding(pc: PC) {
    pc.GotHead? || pc.Refresh? || pc.Keep? || pc.Reserve?
  }

  /** No call holds a head for `limit` positions or more. */
  ghost predicate Spans(run: seq<State>, limit: nat) {
    forall i, t | 0 <= i < |run| && t in run[i].calls && Holding(run[i].calls[t].pc) ::
      Head(Own(run[i], run[i].calls[t].producer)) < run[i].calls[t].pc.h + limit
  }

  /** The call asked for something and was refused. */
  ghost predicate Refused(run: seq<State>, i: nat, t: nat) {
    i < |run| && t in run[i].calls && run[i].calls[t].pc == Finished(0) && run[i].calls[t].requested > 0
  }

  /** Too little for the request: nothing for a burst, fewer than asked for a fixed transfer. */
  function Short(call: Call): int {
    if call.fixed then call.requested - 1 else 0
  }

  // ---------------------------------------------------------------------------------------
  // One step seen from one call

  ghost predicate Took(s: State, t: nat, s': State) {
    && t in s.calls && t in s'.calls && Enabled(s, Go(t))
    && var c := s.calls[t];
       var e := Turn(s.cap, Own(s, c.producer), Own(s, !c.producer).published, Cache(s, c.producer), c);
       s' == Placed(s, t, c, e) && s'.calls[t] == c.(pc := e.pc)
  }

  lemma CallStep(s: State, s': State, t: nat)
    requires Next(s, s') && t in s'.calls
    ensures s'.cap == s.cap
    ensures
      || (t !in s.calls && s'.calls[t].pc == Start)
      || (t in s.calls && s'.calls[t] == s.calls[t])
      || Took(s, t, s')
  {
    hide Turn, Within;
    var x :| Enabled(s, x) && s' == Apply(s, x);
  }

  /** A step leaves a head alone, or reserves on that side and leaves the other side as it is. */
  ghost predicate HeadStep(s: State, s': State, producer: bool) {
    || Head(Own(s', producer)) == Head(Own(s, producer))
    || (Head(Own(s', producer)) > Head(Own(s, producer)) && Own(s', !producer).published == Own(s, !producer).published)
  }

  lemma NextHead(s: State, s': State, producer: bool)
    requires Inv(s) && Next(s, s')
    ensures HeadStep(s, s', producer)
  {
    hide Turn, Within, Inv;
    var x :| Enabled(s, x) && s' == Apply(s, x);
    if x.Go? {
      var c := s.calls[x.t];
      ReadyHere(s, x.t);
      TurnHead(s.cap, Own(s, c.producer), Own(s, !c.producer).published, Cache(s, c.producer), c);
    }
  }

  lemma TurnHead(cap: nat, own: Side, opposite: nat, cache: nat, call: Call)
    requires Ready(cap, own, opposite, cache, call)
    ensures Head(Turn(cap, own, opposite, cache, call).own) >= Head(own)
  {
    var e := Turn(cap, own, opposite, cache, call);
    hide *;
    TurnKeeps(cap, own, opposite, cache, call, e);
    TurnGrew(cap, own, opposite, call, e);
  }

  lemma TurnGrew(cap: nat, own: Side, opposite: nat, call: Call, e: Effect)
    requires TurnOk(cap, own, opposite, call, e)
    ensures Head(e.own) >= Head(own)
  {
    assert |e.own.starts| > 0;
    if |own.starts| > 0 {
      assert e.own.starts[|own.starts| - 1] == Head(own);
    }
  }

  lemma FreeBounds(s: State, producer: bool)
    requires Inv(s)
    ensures 0 <= Free(s, producer) <= s.cap
  {
    StandingOf(s, producer);
    hide SideOk;
  }

  lemma SinceStep(run: seq<State>, j: nat, i: nat, t: nat)
    requires Since(run, j, i, t) && i + 1 < |run| && t in run[i + 1].calls && SameRequest(run[i].calls[t], run[i + 1].calls[t])
    ensures Since(run, j, i + 1, t)
  {
    forall k | j <= k <= i + 1 ensures t in run[k].calls && SameRequest(run[k].calls[t], run[i + 1].calls[t]) {
      if k <= i {
        assert SameRequest(run[k].calls[t], run[i].calls[t]);
      }
    }
  }

  // ---------------------------------------------------------------------------------------
  // Where an observed position comes from

  /** At `j` the call held `h` and loaded `p`, freshly. */
  ghost predicate LoadedAt(run: seq<State>, i: nat, t: nat, j: nat, h: nat, p: nat) {
    && Since(run, j, i, t) && run[j].calls[t].pc.Refresh? && run[j].calls[t].pc.h == h
    && Own(run[j], !run[i].calls[t].producer).published == p
  }

  ghost predicate Fresh(run: seq<State>, i: nat, t: nat, h: nat, p: nat) {
    exists j: nat :: LoadedAt(run, i, t, j, h, p)
  }

  /** The position a call decides on was loaded freshly, unless the cached one was enough. */
  lemma {:induction false} ObservedFresh(run: seq<State>, i: nat, t: nat)
    requires Run(run) && i < |run| && t in run[i].calls && (run[i].calls[t].pc.Keep? || run[i].calls[t].pc.Reserve?)
    requires run[i].calls[t].requested <= run[i].cap < CYCLE
    ensures
      var c := run[i].calls[t];
      Fresh(run, i, t, c.pc.h, c.pc.p) || (c.pc.Reserve? && !NeedsFresh(run[i].cap, c, c.pc.h, c.pc.p))
  {
    hide Turn, NeedsFresh, Next;
    assert i > 0;
    var s, s' := run[i - 1], run[i - 1 + 1];
    assert Next(s, s');
    CallStep(s, s', t);
    if Took(s, t, s') {
      ObservedStep(s, t, s');
      if s.calls[t].pc.Refresh? {
        assert LoadedAt(run, i, t, i - 1, s'.calls[t].pc.h, s'.calls[t].pc.p);
      } else if s.calls[t].pc.Keep? {
        ObservedFresh(run, i - 1, t);
        var j: nat :| LoadedAt(run, i - 1, t, j, s.calls[t].pc.h, s.calls[t].pc.p);
        SinceStep(run, j, i - 1, t);
        assert LoadedAt(run, i, t, j, s'.calls[t].pc.h, s'.calls[t].pc.p);
      }
    } else {
      ObservedFresh(run, i - 1, t);
      if Fresh(run, i - 1, t, s.calls[t].pc.h, s.calls[t].pc.p) {
        var j: nat :| LoadedAt(run, i - 1, t, j, s.calls[t].pc.h, s.calls[t].pc.p);
        SinceStep(run, j, i - 1, t);
        assert LoadedAt(run, i, t, j, s'.calls[t].pc.h, s'.calls[t].pc.p);
      }
    }
  }

  lemma ObservedStep(s: State, t: nat, s': State)
    requires Took(s, t, s') && (s'.calls[t].pc.Keep? || s'.calls[t].pc.Reserve?) && s.calls[t].requested <= s.cap < CYCLE
    ensures
      var c, pc, pc' := s.calls[t], s.calls[t].pc, s'.calls[t].pc;
      || (pc.Refresh? && pc'.h == pc.h && pc'.p == Own(s, !c.producer).published)
      || (pc.Keep? && pc'.Reserve? && pc'.h == pc.h && pc'.p == pc.p)
      || (pc.GotHead? && pc'.Reserve? && pc'.h == pc.h && !NeedsFresh(s.cap, s'.calls[t], pc'.h, pc'.p))
  {
    hide W, Sub32, Pack, NextTail, UnpackPos, Granted, Stale, SameHead;
    var c := s.calls[t];
    if c.pc.GotHead? {
      SameNeed(s.cap, c, s'.calls[t], c.pc.h, Cache(s, c.producer));
    }
    hide NeedsFresh;
  }

  lemma SameNeed(cap: nat, a: Call, b: Call, h: nat, p: nat)
    requires SameRequest(a, b) && a.requested <= cap < CYCLE
    ensures b.requested <= cap && NeedsFresh(cap, a, h, p) == NeedsFresh(cap, b, h, p)
  {
  }

  // ---------------------------------------------------------------------------------------
  // What is taken

  /** A cached position that was enough grants all that is asked for. */
  lemma CachedGrants(cap: nat, call: Call, h: nat, p: nat)
    requires 0 < call.requested <= cap <= 0x4000_0000 && !NeedsFresh(cap, call, h, p)
    ensures Granted(cap, call, h, p) == call.requested && !Stale(cap, call, h, p)
  {
    WrappedRoom(cap, call, W(h), W(p));
    hide W;
  }

  lemma WrappedRoom(cap: nat, call: Call, h: U32, p: U32)
    requires 0 < call.requested <= cap <= 0x4000_0000
    requires if call.producer then Sub32(h, p) <= cap - call.requested
             else Sub32(Sub32(p, h), call.requested) <= cap - call.requested
    ensures call.requested <= Room(Lead(cap, call.producer), p, h) <= cap
  {
    SubIs(h, p);
    SubIs(p, h);
    SubIs(Sub32(p, h), call.requested);
    RoomOf(Lead(cap, call.producer), p, h);
    hide Sub32, Room;
  }

  lemma SubIs(a: U32, b: U32)
    ensures Sub32(a, b) == if a >= b then a - b else a - b + CYCLE
  {
  }

  lemma RoomOf(lead: U32, p: U32, h: U32)
    requires lead <= 0x4000_0000
    ensures
      var v := lead + p - h;
      Room(lead, p, h) == if v < 0 then v + CYCLE else if v >= CYCLE then v - CYCLE else v
  {
  }

  lemma SinceOn(run: seq<State>, j: nat, k: nat, i: nat, t: nat)
    requires Since(run, j, k, t) && Since(run, k, i, t)
    ensures Since(run, j, i, t)
  {
    forall m | j <= m <= i ensures t in run[m].calls && SameRequest(run[m].calls[t], run[i].calls[t]) {
      if m < k {
        assert SameRequest(run[m].calls[t], run[k].calls[t]) && SameRequest(run[k].calls[t], run[i].calls[t]);
      }
    }
  }

  lemma HoldStep(s: State, t: nat, s': State)
    requires Took(s, t, s') && Holding(s'.calls[t].pc)
    ensures Own(s', s.calls[t].producer) == Own(s, s.calls[t].producer)
    ensures
      || (Holding(s.calls[t].pc) && s.calls[t].pc.h == s'.calls[t].pc.h)
      || s'.calls[t].pc.h == Head(Own(s', s.calls[t].producer))
  {
    hide W, Sub32, Pack, NextTail, UnpackPos, Granted, Stale, SameHead, NeedsFresh;
  }

  /** If the head has moved on since a call loaded it, not everything was free at an instant since. */
  lemma {:induction false} HeldMoved(run: seq<State>, i: nat, t: nat) returns (j: nat)
    requires Run(run) && i < |run| && t in run[i].calls && Holding(run[i].calls[t].pc)
    requires Head(Own(run[i], run[i].calls[t].producer)) != run[i].calls[t].pc.h
    ensures Met(run, i, t, j, run[i].cap - 1)
  {
    hide Next, Turn, HeadStep, Inv;
    assert i > 0;
    var s, s', producer := run[i - 1], run[i - 1 + 1], run[i].calls[t].producer;
    assert Next(s, s');
    RunInv(run, i - 1);
    CallStep(s, s', t);
    if Took(s, t, s') {
      HoldStep(s, t, s');
    }
    NextHead(s, s', producer);
    if Head(Own(s', producer)) != Head(Own(s, producer)) {
      MovedFree(s, s', producer);
      j := i;
    } else {
      j := HeldMoved(run, i - 1, t);
      SinceStep(run, j, i - 1, t);
    }
  }

  lemma MovedFree(s: State, s': State, producer: bool)
    requires Inv(s) && HeadStep(s, s', producer) && s'.cap == s.cap && Head(Own(s', producer)) != Head(Own(s, producer))
    ensures Free(s', producer) <= s'.cap - 1
  {
    hide Inv;
    FreeBounds(s, producer);
  }

  // ---------------------------------------------------------------------------------------
  // Refusals

  lemma RefusedStep(s: State, t: nat, s': State)
    requires Took(s, t, s') && s'.calls[t].pc == Finished(0) && s.calls[t].requested > 0
    ensures
      var c := s.calls[t];
      || c.pc == Finished(0)
      || (c.pc.Reserve? && Granted(s.cap, c, c.pc.h, c.pc.p) == 0 && !Stale(s.cap, c, c.pc.h, c.pc.p))
  {
    hide W, Sub32, Pack, NextTail, UnpackPos, Granted, Stale, SameHead, NeedsFresh;
  }

  /** The word that refuses is the true room, unless the position loaded is a cycle or more past the head held. */
  lemma RefusedRoom(cap: nat, call: Call, h: nat, p: nat)
    requires 0 < call.requested <= cap <= 0x4000_0000 && Granted(cap, call, h, p) == 0 && !Stale(cap, call, h, p)
    requires 0 <= Lead(cap, call.producer) + p - h < CYCLE
    ensures Lead(cap, call.producer) + p - h <= Short(call)
  {
    var v := Lead(cap, call.producer) + p - h;
    RoomIs(Lead(cap, call.producer), p, h);
    assert v % 0x1_0000_0000 == v;
    hide W, Room;
  }

  lemma HeldBelow(s: State, t: nat)
    requires Inv(s) && t in s.calls && s.calls[t].pc.Refresh?
    ensures s.calls[t].pc.h <= Head(Own(s, s.calls[t].producer))
    ensures 0 <= Free(s, s.calls[t].producer) <= s.cap <= 0x4000_0000
  {
    FreeBounds(s, s.calls[t].producer);
    assert CallOk(s.cap, Own(s, s.calls[t].producer), Own(s, !s.calls[t].producer).published, s.calls[t]);
    SeenBelow(Own(s, s.calls[t].producer), s.calls[t].pc.h, s.calls[t].pc.c);
  }

  lemma SeenBelow(own: Side, h: nat, c: nat)
    requires SideOk(own) && HeadSeen(own, h, c)
    ensures h <= Head(own)
  {
  }

  /** The instant a refused call met, found at the load it decided on. */
  lemma DecidedInstant(run: seq<State>, i: nat, t: nat, limit: nat) returns (j: nat)
    requires Run(run) && Spans(run, limit) && limit <= CYCLE && i < |run| && t in run[i].calls && run[i].calls[t].pc.Reserve?
    requires 0 < run[i].calls[t].requested <= run[i].cap && (run[i].cap == 1 || limit + run[i].cap <= CYCLE)
    requires run[i].cap <= 0x4000_0000
    requires
      var c := run[i].calls[t];
      Granted(run[i].cap, c, c.pc.h, c.pc.p) == 0 && !Stale(run[i].cap, c, c.pc.h, c.pc.p)
    ensures Met(run, i, t, j, Short(run[i].calls[t]))
  {
    hide Next, Turn, Inv, Granted, Stale, NeedsFresh;
    var c, cap := run[i].calls[t], run[i].cap;
    ObservedFresh(run, i, t);
    if !NeedsFresh(cap, c, c.pc.h, c.pc.p) {
      CachedGrants(cap, c, c.pc.h, c.pc.p);
      assert false;
    }
    var k: nat :| LoadedAt(run, i, t, k, c.pc.h, c.pc.p);
    RunInv(run, k);
    CapKept(run, k);
    CapKept(run, i);
    HeldBelow(run[k], t);
    assert run[k].calls[t].producer == c.producer;
    if Lead(cap, c.producer) + c.pc.p - c.pc.h < CYCLE {
      RefusedRoom(cap, c, c.pc.h, c.pc.p);
      j := k;
    } else {
      assert Head(Own(run[k], c.producer)) < c.pc.h + limit;
      j := HeldMoved(run, k, t);
      SinceOn(run, j, k, i, t);
    }
  }

  lemma {:induction false} CapKept(run: seq<State>, i: nat)
    requires Run(run) && i < |run|
    ensures run[i].cap == run[0].cap && 0 < run[i].cap <= 0x4000_0000
    ensures forall t | t in run[i].calls :: run[i].calls[t].requested <= run[i].cap
  {
    RunInv(run, i);
    assert HeadsOk(run[i]) && CallsOk(run[i]);
    hide HeadsOk, CallOk, Init;
    assert 0 < run[i].cap <= 0x4000_0000 by { hide *; CapOk(run[i]); }
    if i > 0 {
      CapKept(run, i - 1);
      hide Turn, Within;
      assert Next(run[i - 1], run[i - 1 + 1]);
    }
  }

  lemma CapOk(s: State)
    requires HeadsOk(s)
    ensures 0 < s.cap <= 0x4000_0000
  {
  }

  /** A refused call met an instant, while it ran, with too little to take for it, if no head is held for a cycle less
      the capacity, or there is but one slot. */
  lemma {:induction false} RefusalIsHonest(run: seq<State>, i: nat, t: nat, limit: nat) returns (j: nat)
    requires Run(run) && Spans(run, limit) && limit <= CYCLE && Refused(run, i, t)
    requires run[i].cap == 1 || limit + run[i].cap <= CYCLE
    ensures Met(run, i, t, j, Short(run[i].calls[t]))
  {
    hide Next, Turn, Inv, Granted, Stale, Init;
    CapKept(run, i);
    if i == 0 {
      NoneFirst(run);
      assert false;
    }
    var s, s' := run[i - 1], run[i - 1 + 1];
    assert Next(s, s');
    CapKept(run, i - 1);
    CallStep(s, s', t);
    if Took(s, t, s') && s.calls[t].pc != Finished(0) {
      RefusedStep(s, t, s');
      j := DecidedInstant(run, i - 1, t, limit);
    } else {
      j := RefusalIsHonest(run, i - 1, t, limit);
    }
    SinceStep(run, j, i - 1, t);
  }

  lemma NoneFirst(run: seq<State>)
    requires Run(run)
    ensures run[0].calls == map[]
  {
  }

  /** A reservation takes exactly what is asked for, or all there was at an instant while the call ran: a burst that
      gets less than it asked for has left nothing then. */
  lemma TakesWhatThereIs(run: seq<State>, i: nat, t: nat)
    requires Run(run) && i + 1 < |run| && Took(run[i], t, run[i + 1])
    requires run[i].calls[t].pc.Reserve? && run[i + 1].calls[t].pc.Working? && run[i].calls[t].requested > 0
    ensures
      var c := run[i].calls[t];
      var taken := Head(Own(run[i + 1], c.producer)) - Head(Own(run[i], c.producer));
      && 0 < taken <= c.requested
      && (taken < c.requested ==> !c.fixed && exists j: nat :: Since(run, j, i, t) && Free(run[j], c.producer) == taken)
  {
    hide Next, Turn, Inv, NeedsFresh, Granted;
    var c, cap := run[i].calls[t], run[i].cap;
    var own := Own(run[i], c.producer);
    var e := Turn(cap, own, Own(run[i], !c.producer).published, Cache(run[i], c.producer), c);
    CapKept(run, i);
    ReservationFits(run, i, t, e);
    ObservedFresh(run, i, t);
    if Head(e.own) - Head(own) < c.requested {
      ShortIsFresh(run, i, t, e);
    }
  }

  lemma ShortIsFresh(run: seq<State>, i: nat, t: nat, e: Effect)
    requires Run(run) && i < |run| && t in run[i].calls && run[i].calls[t].pc.Reserve? && Enabled(run[i], Go(t))
    requires
      var c := run[i].calls[t];
      && e == Turn(run[i].cap, Own(run[i], c.producer), Own(run[i], !c.producer).published, Cache(run[i], c.producer), c)
      && e.pc.Working? && 0 < c.requested <= run[i].cap <= 0x4000_0000
      && Head(e.own) - Head(Own(run[i], c.producer)) < c.requested
    ensures
      var c := run[i].calls[t];
      exists j: nat ::
        Since(run, j, i, t) && Free(run[j], c.producer) == Head(e.own) - Head(Own(run[i], c.producer))
  {
    hide Next, Inv, NeedsFresh, Granted, Stale, SameHead;
    var c, cap := run[i].calls[t], run[i].cap;
    var own := Own(run[i], c.producer);
    ReservationFits(run, i, t, e);
    RunInv(run, i);
    ReadyHere(run[i], t);
    ReserveShape(cap, own, Own(run[i], !c.producer).published, Cache(run[i], c.producer), c, e);
    GrantIs(cap, own, Cache(run[i], c.producer), c, e);
    hide Turn, ReserveTurn, Ready;
    ObservedFresh(run, i, t);
    if !NeedsFresh(cap, c, c.pc.h, c.pc.p) {
      CachedGrants(cap, c, c.pc.h, c.pc.p);
      assert false;
    }
    var j: nat :| LoadedAt(run, i, t, j, c.pc.h, c.pc.p);
    RunInv(run, j);
    CapKept(run, j);
    CapKept(run, i);
    HeldBelow(run[j], t);
    assert run[j].calls[t].producer == c.producer;
    HeadRises(run, j, i, c.producer);
    HeadHeld(run[i], t, e);
    assert Free(run[j], c.producer) == Head(e.own) - Head(own);
  }

  /** The head a reservation moves is the one the call holds. */
  lemma HeadHeld(s: State, t: nat, e: Effect)
    requires Inv(s) && t in s.calls && s.calls[t].pc.Reserve? && Enabled(s, Go(t)) && e.pc.Working?
    requires
      var c := s.calls[t];
      e == Turn(s.cap, Own(s, c.producer), Own(s, !c.producer).published, Cache(s, c.producer), c)
    ensures s.calls[t].pc.h == Head(Own(s, s.calls[t].producer))
  {
    hide Inv, Ready;
    ReadyHere(s, t);
    var c := s.calls[t];
    ReserveShape(s.cap, Own(s, c.producer), Own(s, !c.producer).published, Cache(s, c.producer), c, e);
    ReservedFits(s.cap, Own(s, c.producer), Own(s, !c.producer).published, Cache(s, c.producer), c, e);
  }

  lemma GrantIs(cap: nat, own: Side, cache: nat, call: Call, e: Effect)
    requires call.pc.Reserve? && cap < CYCLE && e.pc.Working?
    requires e == ReserveTurn(cap, own, cache, call, call.pc.h, call.pc.c, call.pc.p)
    ensures Head(e.own) == Head(own) + Granted(cap, call, call.pc.h, call.pc.p)
  {
    hide Granted, Stale, SameHead;
  }

  lemma HeadRises(run: seq<State>, j: nat, i: nat, producer: bool)
    requires Run(run) && j <= i < |run|
    ensures Head(Own(run[j], producer)) <= Head(Own(run[i], producer))
  {
    RunGrew(run, j, i, producer);
    RunInv(run, j);
    RunInv(run, i);
    GrewHead(Own(run[j], producer), Own(run[i], producer));
  }

  lemma GrewHead(a: Side, b: Side)
    requires SideOk(a) && SideOk(b) && Grew(a, b)
    ensures Head(a) <= Head(b)
  {
    assert b.starts[|a.starts| - 1] == Head(a);
  }
}
