/** With clearing on, the multi-producer multi-consumer frontier queue keeps no value that a consumer is done with:
    a slot that is not zero is held for a value that is waiting, being written or still being read and cleared. */
module FrontierClearing {
  import opened Lanes
  import D = Discovery
  import opened FrontierMPMC
  import opened FrontierInvariant
  import opened FrontierSafety
  import opened FrontierSteps
  import opened FrontierTheorems
  import opened FrontierBulk

  /** Consumer `c` has reserved position `p` and has not cleared it yet. */
  predicate Uncleared<T>(c: Call<T>, p: int) {
    && c.request.side.Consumer?
    && (|| (c.pc.Copy? && c.pc.start <= p < c.pc.start + c.pc.count)
        || (c.pc.Clear? && c.pc.start + c.pc.done <= p < c.pc.start + c.pc.count))
  }

  ghost predicate HeldBy<T>(s: State<T>, t: nat, p: int) {
    t in s.calls && Uncleared(s.calls[t], p)
  }

  /** Position `p` is reserved by a producer, and no consumer has cleared it. */
  ghost predicate Wanted<T>(s: State<T>, p: nat) {
    && p < s.producers.head
    && (s.consumers.head <= p || exists t :: HeldBy(s, t, p))
  }

  ghost predicate Occupied<T>(s: State<T>, slot: nat)
    requires s.n > 0
  {
    exists p: nat :: Slot(p, s.n) == slot && Wanted(s, p)
  }

  ghost predicate ClearInv<T>(s: State<T>)
    requires Shaped(s)
  {
    s.clearing ==> forall slot | 0 <= slot < s.n && s.entries[slot] != s.zero :: Occupied(s, slot)
  }

  // ---------------------------------------------------------------------------------------
  // Steps

  /** A step of call `t` after which every wanted position is wanted still, except `gone`. */
  ghost predicate Passes<T>(s: State<T>, t: nat, s': State<T>, gone: int) {
    && SameCalls(s, s', t) && s'.n == s.n && s'.zero == s.zero && s'.clearing == s.clearing
    && s.producers.head <= s'.producers.head
    && (forall p: nat | p != gone && HeldBy(s, t, p) :: HeldBy(s', t, p))
    && (forall p: nat | s.consumers.head <= p < s'.consumers.head :: HeldBy(s', t, p))
  }

  lemma WantedStill<T>(s: State<T>, t: nat, s': State<T>, gone: int, p: nat)
    requires Passes(s, t, s', gone) && Wanted(s, p) && p != gone
    ensures Wanted(s', p)
  {
    hide Uncleared;
    if s'.consumers.head > p {
      if s.consumers.head <= p {
        assert HeldBy(s', t, p);
      } else {
        var u :| HeldBy(s, u, p);
        assert HeldBy(s', u, p);
      }
    }
  }

  /** A step that changes no slot. */
  lemma PassKeeps<T>(s: State<T>, t: nat, s': State<T>)
    requires Shaped(s) && Shaped(s') && ClearInv(s) && Passes(s, t, s', -1) && s'.entries == s.entries
    ensures ClearInv(s')
  {
    hide Passes, Wanted, Slot;
    assert s'.n == s.n && s'.zero == s.zero && s'.clearing == s.clearing by { PassesSame(s, t, s', -1); }
    if s'.clearing {
      forall slot | 0 <= slot < s'.n && s'.entries[slot] != s'.zero ensures Occupied(s', slot) {
        assert Occupied(s, slot);
        var p: nat :| Slot(p, s.n) == slot && Wanted(s, p);
        WantedStill(s, t, s', -1, p);
      }
    }
  }

  lemma PassesSame<T>(s: State<T>, t: nat, s': State<T>, gone: int)
    requires Passes(s, t, s', gone)
    ensures s'.n == s.n && s'.zero == s.zero && s'.clearing == s.clearing
  {
  }

  /** A step that stores in the slot of `q`: a value where one is wanted, or a zero. */
  lemma StoreKeeps<T>(s: State<T>, t: nat, s': State<T>, q: nat, v: T, gone: int)
    requires Shaped(s) && Shaped(s') && ClearInv(s) && Passes(s, t, s', gone)
    requires s'.entries == s.entries[Slot(q, s.n) := v]
    requires if gone == q then v == s.zero else gone == -1 && Wanted(s', q)
    ensures ClearInv(s')
  {
    hide Passes, Wanted, Slot;
    assert s'.n == s.n && s'.zero == s.zero && s'.clearing == s.clearing by { PassesSame(s, t, s', gone); }
    if s'.clearing {
      forall slot | 0 <= slot < s'.n && s'.entries[slot] != s'.zero ensures Occupied(s', slot) {
        if slot != Slot(q, s.n) {
          assert Occupied(s, slot);
          var p: nat :| Slot(p, s.n) == slot && Wanted(s, p);
          WantedStill(s, t, s', gone, p);
        }
      }
    }
  }

  lemma EdgeClears<T>(s: State<T>, a: Action<T>, s': State<T>)
    requires Shaped(s) && Enabled(s, a) && !a.Go? && s' == Apply(s, a)
    ensures Passes(s, a.t, s', -1) && s'.entries == s.entries
  {
    hide Available;
  }

  lemma LoadClears<T>(s: State<T>, t: nat, s': State<T>)
    requires Shaped(s) && t in s.calls && s' == Turn(s, t)
    requires s.calls[t].pc.LoadHead? || s.calls[t].pc.LoadOpposite?
    ensures Passes(s, t, s', -1) && s'.entries == s.entries
  {
    hide Available, D.Sub64;
  }

  lemma AdvanceClears<T>(s: State<T>, t: nat, s': State<T>, head: nat, scan: D.Scan)
    requires Shaped(s) && t in s.calls && s.calls[t].pc == Advance(head, scan)
    requires s' == AdvanceTurn(s, t, s.calls[t], head, scan)
    ensures Passes(s, t, s', -1) && s'.entries == s.entries
  {
    hide Available, D.Sub64, D.Step;
  }

  lemma ReserveClears<T>(s: State<T>, t: nat, s': State<T>, head: nat, available: nat)
    requires Shaped(s) && t in s.calls && s.calls[t].pc == Reserve(head, available)
    requires s' == ReserveTurn(s, t, s.calls[t], head, available)
    ensures Passes(s, t, s', -1) && s'.entries == s.entries
  {
  }

  lemma PublishClears<T>(s: State<T>, t: nat, s': State<T>)
    requires Shaped(s) && t in s.calls && s.calls[t].pc.Publish? && s' == Turn(s, t)
    ensures Passes(s, t, s', -1) && s'.entries == s.entries
  {
    hide Slot;
  }

  /** A consumer that reads leaves the slots alone, and clears next. */
  lemma ReadClears<T>(s: State<T>, t: nat, s': State<T>, start: nat, count: nat, done: nat)
    requires Shaped(s) && t in s.calls && s.calls[t].pc == Copy(start, count, done)
    requires s.calls[t].request.side.Consumer? || done >= count || done >= |s.calls[t].values|
    requires s' == CopyTurn(s, t, s.calls[t], start, count, done) && s.clearing
    ensures Passes(s, t, s', -1) && s'.entries == s.entries
  {
    hide Slot;
  }

  lemma WriteClears<T>(s: State<T>, t: nat, s': State<T>, start: nat, count: nat, done: nat)
    requires Shaped(s) && t in s.calls && s.calls[t].pc == Copy(start, count, done)
    requires s.calls[t].request.side.Producer? && done < count && done < |s.calls[t].values|
    requires s' == CopyTurn(s, t, s.calls[t], start, count, done)
    ensures Passes(s, t, s', -1) && s'.entries == s.entries[Slot(start + done, s.n) := s.calls[t].values[done]]
    ensures s'.producers == s.producers && s'.consumers == s.consumers
  {
    hide Slot;
  }

  lemma ZeroClears<T>(s: State<T>, t: nat, s': State<T>, start: nat, count: nat, done: nat)
    requires Shaped(s) && t in s.calls && s.calls[t].pc == Clear(start, count, done)
    requires s' == ClearTurn(s, t, s.calls[t], start, count, done)
    ensures if done < count
            then Passes(s, t, s', start + done) && s'.entries == s.entries[Slot(start + done, s.n) := s.zero]
            else Passes(s, t, s', -1) && s'.entries == s.entries
  {
    hide Slot;
  }

  /** A producer writes where a value is wanted. */
  lemma WriterWanted<T>(s: State<T>, t: nat, q: nat)
    requires Inv(s) && t in s.calls && s.calls[t].request.side.Producer? && Inside(s.calls[t], q)
    ensures s.consumers.head <= q < s.producers.head
  {
    hide LaneInv, Inside, PositionInv, CarriesInv, LiveInv, WaitingInv, OutputsInv, HeldInv;
    InsideWindow(s, t, q);
  }

  lemma CopyKeeps<T>(s: State<T>, t: nat, s': State<T>, start: nat, count: nat, done: nat)
    requires Inv(s) && Shaped(s') && ClearInv(s) && t in s.calls && s.calls[t].pc == Copy(start, count, done)
    requires s' == CopyTurn(s, t, s.calls[t], start, count, done) && s.clearing
    ensures ClearInv(s')
  {
    hide Inv, ClearInv, Passes, CopyTurn, Slot;
    InvShaped(s);
    if s.calls[t].request.side.Producer? && done < count && done < |s.calls[t].values| {
      WriteClears(s, t, s', start, count, done);
      WriterWanted(s, t, start + done);
      StoreKeeps(s, t, s', start + done, s.calls[t].values[done], -1);
    } else {
      ReadClears(s, t, s', start, count, done);
      PassKeeps(s, t, s');
    }
  }

  lemma ClearStepKeeps<T>(s: State<T>, t: nat, s': State<T>, start: nat, count: nat, done: nat)
    requires Shaped(s) && Shaped(s') && ClearInv(s) && t in s.calls && s.calls[t].pc == Clear(start, count, done)
    requires s' == ClearTurn(s, t, s.calls[t], start, count, done)
    ensures ClearInv(s')
  {
    hide ClearInv, Passes, ClearTurn, Slot;
    ZeroClears(s, t, s', start, count, done);
    if done < count {
      StoreKeeps(s, t, s', start + done, s.zero, start + done);
    } else {
      PassKeeps(s, t, s');
    }
  }

  lemma TurnClears<T>(s: State<T>, t: nat, s': State<T>)
    requires Inv(s) && ClearInv(s) && Enabled(s, Go(t)) && s' == Turn(s, t) && s.clearing
    ensures ClearInv(s')
  {
    hide Inv, ClearInv, Passes, AdvanceTurn, ReserveTurn, CopyTurn, ClearTurn, Slot, Available;
    InvShaped(s);
    match s.calls[t].pc {
      case LoadHead => LoadClears(s, t, s'); PassKeeps(s, t, s');
      case LoadOpposite(_) => LoadClears(s, t, s'); PassKeeps(s, t, s');
      case Advance(head, scan) => AdvanceClears(s, t, s', head, scan); PassKeeps(s, t, s');
      case Reserve(head, available) => ReserveClears(s, t, s', head, available); PassKeeps(s, t, s');
      case Copy(start, count, done) => CopyKeeps(s, t, s', start, count, done);
      case Clear(start, count, done) => ClearStepKeeps(s, t, s', start, count, done);
      case Publish(_, _) => PublishClears(s, t, s'); PassKeeps(s, t, s');
    }
  }

  lemma {:induction false} RunClears<T(!new)>(run: seq<State<T>>, i: nat)
    requires Run(run) && i < |run|
    ensures Shaped(run[i]) && ClearInv(run[i]) && run[i].clearing == run[0].clearing
  {
    hide Inv, ClearInv, Passes, Turn, Available, Slot;
    RunInv(run, i);
    InvShaped(run[i]);
    RunLater(run, 0, i);
    if i == 0 {
      InitClears(run[0]);
    } else {
      RunClears(run, i - 1);
      RunInv(run, i - 1);
      var s, s' := run[i - 1], run[i - 1 + 1];
      assert Next(s, s');
      var a :| Enabled(s, a) && s' == Apply(s, a);
      if !s.clearing {
        NotClearing(s');
      } else if a.Go? {
        TurnClears(s, a.t, s');
      } else {
        EdgeClears(s, a, s');
        PassKeeps(s, a.t, s');
      }
    }
  }

  lemma InitClears<T>(s: State<T>)
    requires Init(s)
    ensures Shaped(s) && ClearInv(s)
  {
  }

  lemma NotClearing<T>(s: State<T>)
    requires Shaped(s) && !s.clearing
    ensures ClearInv(s)
  {
  }

  // ---------------------------------------------------------------------------------------
  // Promises

  /** With clearing on and no consumer inside an interval, every slot is zero but those of the positions between the
      two heads: nothing dequeued is kept. */
  lemma NothingKept<T(!new)>(run: seq<State<T>>, i: nat, slot: nat)
    requires Run(run) && i < |run| && run[0].clearing && slot < run[i].n && slot < |run[i].entries|
    requires forall t | t in run[i].calls && run[i].calls[t].request.side.Consumer? :: !InFlight(run[i].calls[t].pc)
    requires forall p | run[i].consumers.head <= p < run[i].producers.head :: Slot(p, run[i].n) != slot
    ensures run[i].entries[slot] == run[i].zero
  {
    RunClears(run, i);
    hide Slot;
    assert !Occupied(run[i], slot);
  }

  /** With clearing on, a dequeue that is about to release its interval has left zeros in it. */
  lemma DequeueClears<T(!new)>(run: seq<State<T>>, i: nat, t: nat, k: nat)
    requires Run(run) && i < |run| && run[0].clearing && t in run[i].calls && run[i].n == |run[i].entries| > 0
    requires run[i].calls[t].request.side.Consumer? && run[i].calls[t].pc.Publish? && k < run[i].calls[t].pc.count
    ensures run[i].entries[Slot(run[i].calls[t].pc.start + k, run[i].n)] == run[i].zero
  {
    hide Inv, Slot, Wanted;
    var s, q := run[i], run[i].calls[t].pc.start + k;
    RunClears(run, i);
    RunInv(run, i);
    if s.entries[Slot(q, s.n)] != s.zero {
      assert Occupied(s, Slot(q, s.n));
      var p: nat :| Slot(p, s.n) == Slot(q, s.n) && Wanted(s, p);
      NotWanted(s, t, q, p);
      assert false;
    }
  }

  lemma NotWanted<T>(s: State<T>, t: nat, q: nat, p: nat)
    requires Inv(s) && t in s.calls && s.calls[t].request.side.Consumer? && s.calls[t].pc.Publish? && Inside(s.calls[t], q)
    requires Slot(p, s.n) == Slot(q, s.n)
    ensures !Wanted(s, p)
  {
    hide LaneInv, PositionInv, CarriesInv, LiveInv, WaitingInv, OutputsInv, HeldInv, Slot;
    if Wanted(s, p) {
      InsideWindow(s, t, q);
      InvPositions(s);
      if s.consumers.head <= p {
        SlotsApart(s.n, p, q);
      } else {
        var u :| HeldBy(s, u, p);
        CallsApart(s, t, q, u, p);
      }
      assert false;
    }
  }
}
