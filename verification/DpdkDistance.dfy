/** The distance a relaxed side of the dpdk MPMC queue keeps between its head and its tail. */
module DpdkDistance {
  import opened Words32
  import opened DpdkRing
  import opened DpdkInvariant
  import opened DpdkTheorems
  import opened DpdkRefusals

  /** The head a call holds is within its distance of the tail. */
  predicate Near(own: Side, call: Call) {
    Holding(call.pc) && own.relaxed ==> call.pc.h <= own.tail + call.distance
  }

  /** A step of a call takes a head only from within its distance of the tail, and keeps the one it has. */
  lemma TurnNear(cap: nat, own: Side, opposite: nat, cache: nat, call: Call, e: Effect)
    requires call.requested <= cap < CYCLE && Ready(cap, own, opposite, cache, call) && Near(own, call)
    requires e == Turn(cap, own, opposite, cache, call)
    requires Holding(e.pc)
    ensures Near(own, call.(pc := e.pc))
  {
    hide NeedsFresh, Granted, Stale, SideOk, ReserveTurn, TailTurn, Standing;
    match call.pc {
      case GotTail(t) =>
        assert t <= Head(own) by { HeadPast(cap, own, opposite, call); }
        Lap(t, Head(own));
      case Reserve(h, c, p) => NoneHeld(cap, own, cache, call, h, c, p);
      case PubCas(k, cnt, pos, hc, hp) => TailTurnHolds(own, cache, k, cnt, pos, hc, hp);
      case _ =>
    }
  }

  lemma HeadPast(cap: nat, own: Side, opposite: nat, call: Call)
    requires Standing(cap, call.producer, own, opposite)
    ensures own.tail <= Head(own)
  {
  }

  lemma NoneHeld(cap: nat, own: Side, cache: nat, call: Call, h: nat, c: nat, p: nat)
    requires cap < CYCLE
    ensures !Holding(ReserveTurn(cap, own, cache, call, h, c, p).pc)
  {
  }

  lemma TailTurnHolds(own: Side, cache: nat, k: nat, cnt: nat, pos: nat, hc: nat, hp: nat)
    ensures !Holding(TailTurn(own, cache, k, cnt, pos, hc, hp).pc)
  {
  }

  /** Whatever other calls do between, a call of a relaxed side holds a head within its distance of the tail. */
  lemma {:induction false} HeldNear(run: seq<State>, i: nat, t: nat)
    requires Run(run) && i < |run| && t in run[i].calls
    ensures Near(Own(run[i], run[i].calls[t].producer), run[i].calls[t])
  {
    hide Next, Init;
    if i == 0 {
      NoCalls(run[0]);
      assert false;
    } else {
      var s, s' := run[i - 1], run[i];
      assert Next(run[i - 1], run[i - 1 + 1]);
      CallStep(s, s', t);
      var producer := s'.calls[t].producer;
      TailsMonotone(run, i - 1, i, producer);
      SameKind(s, s', producer);
      if t in s.calls {
        HeldNear(run, i - 1, t);
        if s'.calls[t] != s.calls[t] {
          RunInv(run, i - 1);
          StepNear(s, t, s');
        }
      }
    }
  }

  lemma NoCalls(s: State)
    requires Init(s)
    ensures s.calls == map[]
  {
  }

  lemma SameKind(s: State, s': State, producer: bool)
    requires Next(s, s')
    ensures Own(s', producer).relaxed == Own(s, producer).relaxed
  {
    hide Within, NeedsFresh, Granted, Stale, SameHead;
    var x :| Enabled(s, x) && s' == Apply(s, x);
  }

  lemma StepNear(s: State, t: nat, s': State)
    requires Inv(s) && Took(s, t, s') && Near(Own(s, s.calls[t].producer), s.calls[t])
    requires Own(s', s.calls[t].producer).relaxed == Own(s, s.calls[t].producer).relaxed
    requires Own(s, s.calls[t].producer).tail <= Own(s', s.calls[t].producer).tail
    ensures Near(Own(s', s'.calls[t].producer), s'.calls[t])
  {
    var c := s.calls[t];
    var own, opposite, cache := Own(s, c.producer), Own(s, !c.producer).published, Cache(s, c.producer);
    var e := Turn(s.cap, own, opposite, cache, c);
    hide Turn, Inv;
    ReadyHere(s, t);
    hide Enabled;
    if Holding(e.pc) {
      TurnNear(s.cap, own, opposite, cache, c, e);
    }
  }

  /** Every reservation on a relaxed side starts within the caller's distance of the tail at that instant. */
  lemma KeepsDistance(run: seq<State>, i: nat, t: nat, e: Effect)
    requires Run(run) && i < |run| && Enabled(run[i], Go(t)) && run[i].calls[t].pc.Reserve?
    requires
      var c := run[i].calls[t];
      e == Turn(run[i].cap, Own(run[i], c.producer), Own(run[i], !c.producer).published, Cache(run[i], c.producer), c)
    requires e.pc.Working?
    ensures
      var c := run[i].calls[t];
      var own := Own(run[i], c.producer);
      own.relaxed ==> Head(own) <= own.tail + c.distance && Head(e.own) <= own.tail + c.distance + c.requested
  {
    HeldNear(run, i, t);
    ReservationFits(run, i, t, e);
    RunInv(run, i);
    ReadyHere(run[i], t);
    var c := run[i].calls[t];
    hide Inv, Run, Init;
    HeldHead(run[i].cap, Own(run[i], c.producer), Own(run[i], !c.producer).published, Cache(run[i], c.producer), c, e);
  }

  /** A reservation that succeeds was made at the head the call held. */
  lemma HeldHead(cap: nat, own: Side, opposite: nat, cache: nat, call: Call, e: Effect)
    requires Ready(cap, own, opposite, cache, call) && call.pc.Reserve? && e == Turn(cap, own, opposite, cache, call)
    requires e.pc.Working?
    ensures Head(own) == call.pc.h
  {
    ReserveShape(cap, own, opposite, cache, call, e);
    hide Turn, Granted, Stale;
    ReserveExact(own, call.pc.h, call.pc.c);
  }
}
