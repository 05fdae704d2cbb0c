/** Each kind of step keeps the invariant of the multi-producer multi-consumer frontier queue. */
module FrontierSteps {
  import opened Lanes
  import opened FrontierMPMC
  import opened FrontierInvariant
  import opened FrontierSafety

  ghost predicate CallsInv<T>(s: State<T>)
    requires s.n > 0
  {
    forall t | t in s.calls :: PositionInv(s, s.calls[t]) && CarriesInv(s, s.calls[t])
  }

  ghost predicate ValuesInv<T>(s: State<T>)
    requires Shaped(s)
  {
    OwnedInv(s) && HeldInv(s) && LiveInv(s) && WaitingInv(s) && OutputsInv(s)
  }

  ghost predicate Inv<T>(s: State<T>) {
    LanesInv(s) && |s.inputs| == s.producers.head && CallsInv(s) && ValuesInv(s)
  }

  /** All calls but `t` are the same. */
  ghost predicate SameCalls<T>(s: State<T>, s': State<T>, t: nat) {
    forall u | u != t :: (u in s.calls <==> u in s'.calls) && (u in s.calls ==> s'.calls[u] == s.calls[u])
  }

  /** Both lanes hold the same intervals; only frontiers may differ. */
  ghost predicate SameIntervals<T>(s: State<T>, s': State<T>) {
    && s'.producers.(frontier := s.producers.frontier) == s.producers
    && s'.consumers.(frontier := s.consumers.frontier) == s.consumers
  }

  ghost predicate SameValues<T>(s: State<T>, s': State<T>) {
    s'.n == s.n && s'.entries == s.entries && s'.inputs == s.inputs && s'.outputs == s.outputs
  }

  // ---------------------------------------------------------------------------------------
  // Steps outside an interval, and steps that only move a call on within its interval

  ghost predicate Quiet<T>(s: State<T>, s': State<T>, t: nat) {
    && SameCalls(s, s', t) && SameIntervals(s, s') && SameValues(s, s')
    && (t in s.calls ==> !InFlight(s.calls[t].pc))
    && (t in s'.calls ==> !InFlight(s'.calls[t].pc))
  }

  ghost predicate Shifts<T>(s: State<T>, s': State<T>, t: nat) {
    && SameCalls(s, s', t) && SameIntervals(s, s') && SameValues(s, s')
    && t in s.calls && t in s'.calls && InFlight(s.calls[t].pc) && InFlight(s'.calls[t].pc)
    && s.calls[t].request == s'.calls[t].request
    && s.calls[t].pc.start == s'.calls[t].pc.start && s.calls[t].pc.count == s'.calls[t].pc.count
    && (forall p :: Live(s.calls[t], p) <==> Live(s'.calls[t], p))
  }

  lemma StillHeld<T>(s: State<T>, s': State<T>, t: nat, side: Side, b: nat)
    requires SameCalls(s, s', t) && Held(s, side, b)
    requires t in s.calls && s.calls[t].request.side == side && InFlight(s.calls[t].pc) && s.calls[t].pc.start == b ==>
               t in s'.calls && s'.calls[t].request.side == side && InFlight(s'.calls[t].pc) && s'.calls[t].pc.start == b
    ensures Held(s', side, b)
  {
    var u :| u in s.calls && s.calls[u].request.side == side && InFlight(s.calls[u].pc) && s.calls[u].pc.start == b;
    assert u in s'.calls;
  }

  lemma StillReading<T>(s: State<T>, s': State<T>, t: nat, p: nat)
    requires SameCalls(s, s', t) && Reading(s, p)
    requires t in s.calls && Unread(s.calls[t], p) ==> t in s'.calls && Unread(s'.calls[t], p)
    ensures Reading(s', p)
  {
    var u :| u in s.calls && Unread(s.calls[u], p);
    assert u in s'.calls;
  }

  lemma QuietHeld<T>(s: State<T>, s': State<T>, t: nat)
    requires HeldInv(s) && (Quiet(s, s', t) || Shifts(s, s', t))
    ensures HeldInv(s')
  {
    forall side, b | b in s'.Own(side).reserved && b !in s'.Own(side).finished ensures Held(s', side, b) {
      assert b in s.Own(side).reserved && b !in s.Own(side).finished;
      StillHeld(s, s', t, side, b);
    }
  }

  lemma QuietOutputs<T>(s: State<T>, s': State<T>, t: nat)
    requires OutputsInv(s) && (Quiet(s, s', t) || Shifts(s, s', t))
    ensures OutputsInv(s')
  {
    forall p | 0 <= p < s'.consumers.head ensures p in s'.outputs || Reading(s', p) {
      if p !in s.outputs {
        StillReading(s, s', t, p);
      }
    }
  }

  lemma QuietOwned<T>(s: State<T>, s': State<T>, t: nat)
    requires OwnedInv(s) && (Quiet(s, s', t) || Shifts(s, s', t))
    ensures OwnedInv(s')
  {
  }

  lemma QuietLive<T>(s: State<T>, s': State<T>, t: nat)
    requires Shaped(s) && Shaped(s') && LiveInv(s) && (Quiet(s, s', t) || Shifts(s, s', t))
    ensures LiveInv(s')
  {
    hide Slot;
    forall u, p | u in s'.calls && Live(s'.calls[u], p) ensures Holds(s', p) {
      assert u in s.calls && Live(s.calls[u], p);
      assert Holds(s, p);
    }
  }

  lemma QuietWaiting<T>(s: State<T>, s': State<T>, t: nat)
    requires Shaped(s) && Shaped(s') && WaitingInv(s) && (Quiet(s, s', t) || Shifts(s, s', t))
    ensures WaitingInv(s')
  {
    hide Slot;
    forall p | Waiting(s', p) ensures Holds(s', p) {
      assert Waiting(s, p);
      assert Holds(s, p);
    }
  }

  lemma QuietValues<T>(s: State<T>, s': State<T>, t: nat)
    requires Shaped(s) && Shaped(s') && ValuesInv(s) && (Quiet(s, s', t) || Shifts(s, s', t))
    ensures ValuesInv(s')
  {
    hide OwnedInv, HeldInv, LiveInv, WaitingInv, OutputsInv, Quiet, Shifts;
    QuietOwned(s, s', t);
    QuietHeld(s, s', t);
    QuietLive(s, s', t);
    QuietWaiting(s, s', t);
    QuietOutputs(s, s', t);
  }

  // ---------------------------------------------------------------------------------------
  // Reserving an interval

  ghost predicate Reserves<T>(s: State<T>, s': State<T>, t: nat, count: nat) {
    && SameCalls(s, s', t) && t in s.calls && t in s'.calls
    && !InFlight(s.calls[t].pc) && s'.calls[t].pc == Copy(s.Own(s.calls[t].request.side).head, count, 0)
    && s'.calls[t].request == s.calls[t].request && s'.calls[t].values == s.calls[t].values
    && count > 0 && s'.n == s.n && s'.entries == s.entries && s'.outputs == s.outputs
    && var side := s.calls[t].request.side;
       && s'.Own(side) == s.Own(side).Reserve(count) && s'.Opposite(side) == s.Opposite(side)
       && if side.Producer? then count <= |s.calls[t].values| && s'.inputs == s.inputs + s.calls[t].values[..count]
          else s'.inputs == s.inputs
  }

  lemma ReserveOwned<T>(s: State<T>, s': State<T>, t: nat, count: nat)
    requires LanesInv(s) && CallsInv(s) && OwnedInv(s) && Reserves(s, s', t, count)
    ensures OwnedInv(s')
  {
    var side := s.calls[t].request.side;
    hide LaneInv;
    FreshStart(s.Own(side), s.n, s.consumers.frontier);
    forall u | u in s'.calls && u != t && InFlight(s'.calls[u].pc)
      ensures s'.calls[u].request.side == side ==> s'.calls[u].pc.start != s.Own(side).head
      ensures s'.calls[u].pc.start !in s'.Own(s'.calls[u].request.side).finished
    {
      assert PositionInv(s, s.calls[u]);
    }
  }

  lemma FreshStart(l: Lane, n: nat, low: nat)
    requires LaneInv(l, n, low)
    ensures l.head !in l.reserved && l.head !in l.finished
  {
  }

  lemma ReserveHeld<T>(s: State<T>, s': State<T>, t: nat, count: nat)
    requires HeldInv(s) && Reserves(s, s', t, count)
    ensures HeldInv(s')
  {
    forall side, b | b in s'.Own(side).reserved && b !in s'.Own(side).finished ensures Held(s', side, b) {
      if side == s.calls[t].request.side && b == s.Own(side).head {
        assert t in s'.calls;
      } else {
        assert b in s.Own(side).reserved && b !in s.Own(side).finished;
        StillHeld(s, s', t, side, b);
      }
    }
  }

  /** Everything below the completed frontier is finished, so a consumer reserves waiting values. */
  lemma ReservedWaits<T>(s: State<T>, p: nat)
    requires LanesInv(s) && s.consumers.head <= p < s.producers.frontier
    ensures Waiting(s, p)
  {
    var l := s.producers;
    var b := Covered(l.reserved, l.head, s.n, 0, p);
  }

  lemma ReserveLive<T>(s: State<T>, s': State<T>, t: nat, count: nat)
    requires LanesInv(s) && LiveInv(s) && WaitingInv(s) && Shaped(s') && Reserves(s, s', t, count)
    requires s.calls[t].request.side.Consumer? ==> s.consumers.head + count <= s.producers.frontier
    ensures LiveInv(s')
  {
    hide Slot, LaneInv;
    forall u, p | u in s'.calls && Live(s'.calls[u], p) ensures Holds(s', p) {
      if u == t {
        ReservedWaits(s, p);
      } else {
        assert u in s.calls && Live(s.calls[u], p);
      }
      assert Holds(s, p);
    }
  }

  lemma ReserveWaiting<T>(s: State<T>, s': State<T>, t: nat, count: nat)
    requires LanesInv(s) && WaitingInv(s) && Shaped(s') && Reserves(s, s', t, count)
    ensures WaitingInv(s')
  {
    FreshStart(s.producers, s.n, s.consumers.frontier);
    hide Slot, LaneInv;
    forall p | Waiting(s', p) ensures Holds(s', p) {
      assert Waiting(s, p);
      assert Holds(s, p);
    }
  }

  lemma ReserveOutputs<T>(s: State<T>, s': State<T>, t: nat, count: nat)
    requires LanesInv(s) && OutputsInv(s) && Reserves(s, s', t, count)
    ensures OutputsInv(s')
  {
    hide LaneInv;
    forall u, p | u in s'.calls && Unread(s'.calls[u], p) ensures p !in s'.outputs {
      if u != t {
        assert u in s.calls && Unread(s.calls[u], p);
      }
    }
    forall p | 0 <= p < s'.consumers.head ensures p in s'.outputs || Reading(s', p) {
      if p >= s.consumers.head {
        assert Unread(s'.calls[t], p);
      } else if p !in s.outputs {
        StillReading(s, s', t, p);
      }
    }
  }

  lemma ReserveValues<T>(s: State<T>, s': State<T>, t: nat, count: nat)
    requires LanesInv(s) && CallsInv(s) && ValuesInv(s) && Shaped(s') && Reserves(s, s', t, count)
    requires s.calls[t].request.side.Consumer? ==> s.consumers.head + count <= s.producers.frontier
    ensures ValuesInv(s')
  {
    hide LanesInv, CallsInv, OwnedInv, HeldInv, LiveInv, WaitingInv, OutputsInv;
    ReserveOwned(s, s', t, count);
    ReserveHeld(s, s', t, count);
    ReserveLive(s, s', t, count);
    ReserveWaiting(s, s', t, count);
    ReserveOutputs(s, s', t, count);
  }

  // ---------------------------------------------------------------------------------------
  // Writing and clearing a slot

  /** Call `t` writes the slot of position `q`, which lies inside its interval. */
  ghost predicate Writes<T>(s: State<T>, s': State<T>, t: nat, q: nat, v: T)
    requires Shaped(s)
  {
    && SameCalls(s, s', t) && t in s.calls && t in s'.calls && Inside(s.calls[t], q)
    && InFlight(s'.calls[t].pc) && s'.calls[t].request == s.calls[t].request
    && s'.calls[t].pc.start == s.calls[t].pc.start && s'.calls[t].pc.count == s.calls[t].pc.count
    && s'.producers == s.producers && s'.consumers == s.consumers && s'.n == s.n
    && s'.inputs == s.inputs && s'.outputs == s.outputs && s'.entries == s.entries[Slot(q, s.n) := v]
    && (forall p :: Live(s'.calls[t], p) ==> p == q || Live(s.calls[t], p))
    && (forall p :: Unread(s'.calls[t], p) <==> Unread(s.calls[t], p))
    && (Live(s'.calls[t], q) ==> q < |s.inputs| && v == s.inputs[q])
  }

  lemma WriteLive<T>(s: State<T>, s': State<T>, t: nat, q: nat, v: T)
    requires LanesInv(s) && CallsInv(s) && OwnedInv(s) && LiveInv(s) && Shaped(s') && Writes(s, s', t, q, v)
    ensures LiveInv(s')
  {
    hide Slot, LaneInv, OwnedInv;
    InsideWindow(s, t, q);
    forall u, p | u in s'.calls && Live(s'.calls[u], p) ensures Holds(s', p) {
      if u == t && p == q {
      } else {
        assert u in s.calls && Live(s.calls[u], p);
        InsideWindow(s, u, p);
        if u != t {
          CallsApart(s, t, q, u, p);
        }
        WrittenElsewhere(s, s', q, v, p);
      }
    }
  }

  lemma WriteWaiting<T>(s: State<T>, s': State<T>, t: nat, q: nat, v: T)
    requires LanesInv(s) && CallsInv(s) && OwnedInv(s) && WaitingInv(s) && Shaped(s') && Writes(s, s', t, q, v)
    ensures WaitingInv(s')
  {
    hide Slot, LaneInv, OwnedInv;
    InsideWindow(s, t, q);
    InsideNotWaiting(s, t, q);
    forall p | Waiting(s', p) ensures Holds(s', p) {
      assert Waiting(s, p);
      WaitingWindow(s, p);
      WrittenElsewhere(s, s', q, v, p);
    }
  }

  lemma WriteOutputs<T>(s: State<T>, s': State<T>, t: nat, q: nat, v: T)
    requires Shaped(s) && OutputsInv(s) && Writes(s, s', t, q, v)
    ensures OutputsInv(s')
  {
    hide Slot;
    forall p | 0 <= p < s'.consumers.head ensures p in s'.outputs || Reading(s', p) {
      if p !in s.outputs {
        StillReading(s, s', t, p);
      }
    }
  }

  lemma WriteHeld<T>(s: State<T>, s': State<T>, t: nat, q: nat, v: T)
    requires Shaped(s) && HeldInv(s) && Writes(s, s', t, q, v)
    ensures HeldInv(s')
  {
    hide Slot;
    forall side, b | b in s'.Own(side).reserved && b !in s'.Own(side).finished ensures Held(s', side, b) {
      StillHeld(s, s', t, side, b);
    }
  }

  lemma WriteOwned<T>(s: State<T>, s': State<T>, t: nat, q: nat, v: T)
    requires Shaped(s) && OwnedInv(s) && Writes(s, s', t, q, v)
    ensures OwnedInv(s')
  {
  }

  lemma WriteValues<T>(s: State<T>, s': State<T>, t: nat, q: nat, v: T)
    requires LanesInv(s) && CallsInv(s) && ValuesInv(s) && Shaped(s') && Writes(s, s', t, q, v)
    ensures ValuesInv(s')
  {
    hide LaneInv, CallsInv, OwnedInv, HeldInv, LiveInv, WaitingInv, OutputsInv, Writes;
    WriteOwned(s, s', t, q, v);
    WriteHeld(s, s', t, q, v);
    WriteLive(s, s', t, q, v);
    WriteWaiting(s, s', t, q, v);
    WriteOutputs(s, s', t, q, v);
  }

  // ---------------------------------------------------------------------------------------
  // Reading a slot

  /** Consumer `t` reads the slot of position `q`, the first it has not read. */
  ghost predicate Reads<T>(s: State<T>, s': State<T>, t: nat, q: nat)
    requires Shaped(s)
  {
    && SameCalls(s, s', t) && t in s.calls && t in s'.calls && Unread(s.calls[t], q)
    && InFlight(s'.calls[t].pc) && s'.calls[t].request == s.calls[t].request
    && s'.calls[t].pc.start == s.calls[t].pc.start && s'.calls[t].pc.count == s.calls[t].pc.count
    && s'.producers == s.producers && s'.consumers == s.consumers && s'.n == s.n
    && s'.inputs == s.inputs && s'.entries == s.entries
    && s'.outputs == s.outputs[q := s.entries[Slot(q, s.n)]]
    && (forall p :: Live(s'.calls[t], p) <==> p != q && Live(s.calls[t], p))
  }

  lemma ReadOutputs<T>(s: State<T>, s': State<T>, t: nat, q: nat)
    requires LanesInv(s) && CallsInv(s) && OwnedInv(s) && LiveInv(s) && OutputsInv(s) && Reads(s, s', t, q)
    ensures OutputsInv(s')
  {
    hide Slot, LaneInv, OwnedInv, CallsInv;
    ReadOnce(s, s', t, q);
    assert Holds(s, q);
    ReadInside(s, t, q);
    forall p | 0 <= p < s'.consumers.head ensures p in s'.outputs || Reading(s', p) {
      if p !in s.outputs && p != q {
        StillReading(s, s', t, p);
      }
    }
  }

  lemma ReadInside<T>(s: State<T>, t: nat, q: nat)
    requires LanesInv(s) && CallsInv(s) && OwnedInv(s) && t in s.calls && Unread(s.calls[t], q)
    ensures q < s.consumers.head
  {
    hide LaneInv, OwnedInv;
    InsideWindow(s, t, q);
  }

  /** The position read is nobody else's to read. */
  lemma ReadOnce<T>(s: State<T>, s': State<T>, t: nat, q: nat)
    requires LanesInv(s) && CallsInv(s) && OwnedInv(s) && OutputsInv(s) && Reads(s, s', t, q)
    ensures forall u, p | u in s'.calls && Unread(s'.calls[u], p) :: p !in s'.outputs
  {
    hide Slot, LaneInv, OwnedInv, PositionInv, CarriesInv;
    forall u, p | u in s'.calls && Unread(s'.calls[u], p) ensures p !in s'.outputs {
      assert u in s.calls && Unread(s.calls[u], p);
      if u != t {
        CallsApart(s, t, q, u, p);
      }
    }
  }

  lemma ReadHeld<T>(s: State<T>, s': State<T>, t: nat, q: nat)
    requires Shaped(s) && HeldInv(s) && Reads(s, s', t, q)
    ensures HeldInv(s')
  {
    hide Slot;
    forall side, b | b in s'.Own(side).reserved && b !in s'.Own(side).finished ensures Held(s', side, b) {
      StillHeld(s, s', t, side, b);
    }
  }

  lemma ReadOwned<T>(s: State<T>, s': State<T>, t: nat, q: nat)
    requires Shaped(s) && OwnedInv(s) && Reads(s, s', t, q)
    ensures OwnedInv(s')
  {
  }

  lemma ReadLive<T>(s: State<T>, s': State<T>, t: nat, q: nat)
    requires Shaped(s) && Shaped(s') && LiveInv(s) && WaitingInv(s) && Reads(s, s', t, q)
    ensures LiveInv(s') && WaitingInv(s')
  {
    hide Slot;
    forall u, p | u in s'.calls && Live(s'.calls[u], p) ensures Holds(s', p) {
      assert u in s.calls && Live(s.calls[u], p);
      assert Holds(s, p);
    }
    forall p | Waiting(s', p) ensures Holds(s', p) {
      assert Waiting(s, p);
      assert Holds(s, p);
    }
  }

  lemma ReadValues<T>(s: State<T>, s': State<T>, t: nat, q: nat)
    requires LanesInv(s) && CallsInv(s) && ValuesInv(s) && Shaped(s') && Reads(s, s', t, q)
    ensures ValuesInv(s')
  {
    hide LaneInv, CallsInv, OwnedInv, HeldInv, LiveInv, WaitingInv, OutputsInv, Reads;
    ReadOwned(s, s', t, q);
    ReadHeld(s, s', t, q);
    ReadLive(s, s', t, q);
    ReadOutputs(s, s', t, q);
  }

  // ---------------------------------------------------------------------------------------
  // Finishing an interval

  ghost predicate Publishes<T>(s: State<T>, s': State<T>, t: nat)
    requires Shaped(s)
  {
    && t in s.calls && s.calls[t].pc.Publish? && s' == PublishTurn(s, t, s.calls[t])
  }

  lemma PublishOwned<T>(s: State<T>, s': State<T>, t: nat)
    requires Shaped(s) && OwnedInv(s) && Publishes(s, s', t)
    ensures OwnedInv(s')
  {
  }

  lemma PublishHeld<T>(s: State<T>, s': State<T>, t: nat)
    requires Shaped(s) && HeldInv(s) && Publishes(s, s', t)
    ensures HeldInv(s')
  {
    forall side, b | b in s'.Own(side).reserved && b !in s'.Own(side).finished ensures Held(s', side, b) {
      assert b in s.Own(side).reserved && b !in s.Own(side).finished;
      StillHeld(s, s', t, side, b);
    }
  }

  lemma PublishLive<T>(s: State<T>, s': State<T>, t: nat)
    requires Shaped(s) && Shaped(s') && LiveInv(s) && Publishes(s, s', t)
    ensures LiveInv(s')
  {
    hide Slot;
    forall u, p | u in s'.calls && Live(s'.calls[u], p) ensures Holds(s', p) {
      assert u in s.calls && Live(s.calls[u], p);
      assert Holds(s, p);
    }
  }

  /** What a producer publishes becomes waiting; it has written all of it. */
  lemma PublishWaiting<T>(s: State<T>, s': State<T>, t: nat)
    requires Shaped(s) && Shaped(s') && CallsInv(s) && LiveInv(s) && WaitingInv(s) && Publishes(s, s', t)
    ensures WaitingInv(s')
  {
    hide Slot;
    var c := s.calls[t];
    assert PositionInv(s, c);
    forall p | Waiting(s', p) ensures Holds(s', p) {
      var b :| b in s'.producers.finished && b in s'.producers.reserved && b <= p < s'.producers.reserved[b];
      if b in s.producers.finished {
        assert Waiting(s, p);
      } else {
        assert Live(c, p);
      }
      assert Holds(s, p);
    }
  }

  lemma PublishOutputs<T>(s: State<T>, s': State<T>, t: nat)
    requires Shaped(s) && OutputsInv(s) && Publishes(s, s', t)
    ensures OutputsInv(s')
  {
    hide Slot;
    forall u, p | u in s'.calls && Unread(s'.calls[u], p) ensures p !in s'.outputs {
      assert u in s.calls && Unread(s.calls[u], p);
    }
    forall p | 0 <= p < s'.consumers.head ensures p in s'.outputs || Reading(s', p) {
      if p !in s.outputs {
        StillReading(s, s', t, p);
      }
    }
  }

  lemma PublishValues<T>(s: State<T>, s': State<T>, t: nat)
    requires LanesInv(s) && CallsInv(s) && ValuesInv(s) && Shaped(s') && Publishes(s, s', t)
    ensures ValuesInv(s')
  {
    hide LaneInv, CallsInv, OwnedInv, HeldInv, LiveInv, WaitingInv, OutputsInv, Publishes;
    PublishOwned(s, s', t);
    PublishHeld(s, s', t);
    PublishLive(s, s', t);
    PublishWaiting(s, s', t);
    PublishOutputs(s, s', t);
  }
}
