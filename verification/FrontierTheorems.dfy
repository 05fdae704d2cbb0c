/** The promises of the multi-producer multi-consumer frontier queue, over every run. */
module FrontierTheorems {
  import opened Lanes
  import D = Discovery
  import opened FrontierMPMC
  import opened FrontierInvariant
  import opened FrontierSafety
  import opened FrontierSteps

  // ---------------------------------------------------------------------------------------
  // Every step keeps the invariant

  lemma InitInv<T>(s: State<T>)
    requires Init(s)
    ensures Inv(s)
  {
    InitLaneInv(s.n);
  }

  lemma CallsKept<T>(s: State<T>, s': State<T>, t: nat)
    requires s.n > 0 && CallsInv(s) && SameCalls(s, s', t) && Later(s, s')
    requires t in s'.calls ==> PositionInv(s', s'.calls[t]) && CarriesInv(s', s'.calls[t])
    ensures CallsInv(s')
  {
    hide PositionInv, CarriesInv, Grows;
    forall u | u in s'.calls ensures PositionInv(s', s'.calls[u]) && CarriesInv(s', s'.calls[u]) {
      if u != t {
        assert u in s.calls && s'.calls[u] == s.calls[u];
        PositionStable(s, s', s.calls[u]);
        CarriesStable(s, s', s.calls[u]);
      }
    }
  }

  lemma LaterReflexive<T>(s: State<T>, s': State<T>)
    requires s'.n == s.n && s'.clearing == s.clearing && s'.zero == s.zero && s'.inputs == s.inputs
    requires s'.producers == s.producers && s'.consumers == s.consumers
    requires forall p | p in s.outputs :: p in s'.outputs && s'.outputs[p] == s.outputs[p]
    ensures Later(s, s')
  {
  }

  /** A call enters or leaves. */
  lemma EdgeKeeps<T>(s: State<T>, a: Action<T>, s': State<T>)
    requires Inv(s) && Enabled(s, a) && !a.Go? && s' == Apply(s, a)
    ensures Inv(s') && Later(s, s')
  {
    hide LaneInv, Grows, CallsInv, ValuesInv, Later;
    LaterReflexive(s, s');
    EdgeQuiet(s, a, s');
    QuietValues(s, s', a.t);
    CallsKept(s, s', a.t);
  }

  lemma EdgeQuiet<T>(s: State<T>, a: Action<T>, s': State<T>)
    requires LanesInv(s) && Enabled(s, a) && !a.Go? && s' == Apply(s, a)
    ensures SameCalls(s, s', a.t) && Quiet(s, s', a.t)
    ensures a.t in s'.calls ==> PositionInv(s', s'.calls[a.t]) && CarriesInv(s', s'.calls[a.t])
  {
    hide LaneInv, Available;
    if a.Begin? {
      AvailableBounded(s, a.request.side);
    }
  }

  /** A step of a call outside an interval that changes nothing shared. */
  lemma LocalKeeps<T>(s: State<T>, t: nat, c': Call<T>)
    requires Inv(s) && t in s.calls && !InFlight(s.calls[t].pc) && !InFlight(c'.pc)
    requires PositionInv(s, c') && CarriesInv(s, c')
    ensures Inv(s.With(t, c')) && Later(s, s.With(t, c'))
  {
    var s' := s.With(t, c');
    hide LaneInv, Grows, CallsInv, ValuesInv, Later, PositionInv, CarriesInv;
    LaterReflexive(s, s');
    PositionSame(s, s', c');
    CarriesStable(s, s', c');
    QuietValues(s, s', t);
    CallsKept(s, s', t);
  }

  lemma PositionSame<T>(s: State<T>, s': State<T>, c: Call<T>)
    requires s.n > 0 && PositionInv(s, c) && s'.n == s.n && s'.producers == s.producers && s'.consumers == s.consumers
    ensures PositionInv(s', c)
  {
  }

  lemma LoadKeeps<T>(s: State<T>, t: nat)
    requires Inv(s) && t in s.calls
    requires s.calls[t].pc.LoadHead? || s.calls[t].pc.LoadOpposite?
    ensures Inv(Turn(s, t)) && Later(s, Turn(s, t))
  {
    hide Inv, Later;
    if s.calls[t].pc.LoadHead? {
      LoadHeadKeeps(s, t);
    } else {
      LoadOppositeKeeps(s, t);
    }
  }

  lemma LoadHeadKeeps<T>(s: State<T>, t: nat)
    requires Inv(s) && t in s.calls && s.calls[t].pc.LoadHead?
    ensures Inv(Turn(s, t)) && Later(s, Turn(s, t))
  {
    hide LaneInv, ValuesInv, Later;
    var c := s.calls[t];
    OwnBounded(s, c.request.side);
    var c' := c.(pc := if c.request.observe then Advance(s.Own(c.request.side).head, D.LoadFrontier)
                       else LoadOpposite(s.Own(c.request.side).head),
                 fewest := Available(s, c.request.side));
    AvailableBounded(s, c.request.side);
    assert PositionInv(s, c') && CarriesInv(s, c');
    hide PositionInv, CarriesInv, Inv;
    LocalKeeps(s, t, c');
  }

  lemma LoadOppositeKeeps<T>(s: State<T>, t: nat)
    requires Inv(s) && t in s.calls && s.calls[t].pc.LoadOpposite?
    ensures Inv(Turn(s, t)) && Later(s, Turn(s, t))
  {
    hide LaneInv, ValuesInv, Later;
    var c := s.calls[t];
    OwnBounded(s, c.request.side);
    OppositePosition(s, c);
    var c' := AfterOpposite(c, s.n, c.pc.head, s.Opposite(c.request.side).frontier);
    assert PositionInv(s, c') && CarriesInv(s, c');
    hide PositionInv, CarriesInv, Inv;
    LocalKeeps(s, t, c');
  }

  lemma CallFacts<T>(s: State<T>, t: nat)
    requires Inv(s) && t in s.calls
    ensures PositionInv(s, s.calls[t]) && CarriesInv(s, s.calls[t])
    ensures s.consumers.head <= |s.inputs| && s.producers.frontier <= s.producers.head
    ensures InFlight(s.calls[t].pc) ==> s.calls[t].pc.start !in s.Own(s.calls[t].request.side).finished
  {
    hide PositionInv, CarriesInv, LiveInv, WaitingInv, OutputsInv, HeldInv, Tiled, RecordsInv;
  }

  lemma AdvancedKeeps<T>(s: State<T>, t: nat)
    requires Inv(s) && t in s.calls && s.calls[t].pc.Advance? && s.calls[t].pc.scan.Final?
    ensures var c := s.calls[t];
            var s' := s.With(t, AfterAdvance(c, s.n, c.pc.head, s.Opposite(c.request.side).frontier));
            Inv(s') && Later(s, s')
  {
    hide LaneInv, ValuesInv, Later, PositionInv, CarriesInv, CallsInv;
    var c := s.calls[t];
    CallFacts(s, t);
    OwnBounded(s, c.request.side);
    AdvancedPosition(s, c);
    AdvancedCarries(s, c);
    LocalKeeps(s, t, AfterAdvance(c, s.n, c.pc.head, s.Opposite(c.request.side).frontier));
  }

  lemma ScanKeeps<T>(s: State<T>, t: nat, s': State<T>)
    requires Inv(s) && t in s.calls && s.calls[t].pc.Advance? && !s.calls[t].pc.scan.Final?
    requires s' == AdvanceTurn(s, t, s.calls[t], s.calls[t].pc.head, s.calls[t].pc.scan)
    ensures Inv(s') && Later(s, s')
  {
    hide LaneInv, ValuesInv, Later, PositionInv, CarriesInv, CallsInv, Quiet, SameCalls, AdvanceTurn;
    CallFacts(s, t);
    ScanTurn(s, t, s.calls[t], s');
    ScanQuiet(s, t, s');
    QuietValues(s, s', t);
    CallsKept(s, s', t);
  }

  lemma AdvancedCarries<T>(s: State<T>, c: Call<T>)
    requires s.n > 0 && PositionInv(s, c) && CarriesInv(s, c) && c.pc.Advance?
    requires s.consumers.head <= |s.inputs| == s.producers.head
    ensures CarriesInv(s, AfterAdvance(c, s.n, c.pc.head, s.Opposite(c.request.side).frontier))
    ensures !InFlight(AfterAdvance(c, s.n, c.pc.head, s.Opposite(c.request.side).frontier).pc)
  {
    hide D.ScanInv, D.Above, D.Honest;
  }

  lemma ScanQuiet<T>(s: State<T>, t: nat, s': State<T>)
    requires Shaped(s) && t in s.calls && s.calls[t].pc.Advance? && !s.calls[t].pc.scan.Final?
    requires s' == AdvanceTurn(s, t, s.calls[t], s.calls[t].pc.head, s.calls[t].pc.scan)
    requires CarriesInv(s, s.calls[t])
    ensures SameCalls(s, s', t) && Quiet(s, s', t) && t in s'.calls && CarriesInv(s', s'.calls[t])
    ensures s'.inputs == s.inputs && s'.producers.head == s.producers.head
  {
    hide D.Step, Available;
  }

  lemma ReserveKeepsInv<T>(s: State<T>, t: nat, s': State<T>)
    requires Inv(s) && t in s.calls && s.calls[t].pc.Reserve?
    requires s' == ReserveTurn(s, t, s.calls[t], s.calls[t].pc.head, s.calls[t].pc.available)
    requires s.Own(s.calls[t].request.side).head == s.calls[t].pc.head
    requires s.Own(s.calls[t].request.side).head + s.n < D.U64
    ensures Inv(s') && Later(s, s')
  {
    var c := s.calls[t];
    hide LaneInv, ValuesInv, Later, CarriesInv, CallsInv, Reserves;
    CallFacts(s, t);
    ReservedTurn(s, t, c, s');
    ReservedCarries(s, t, s');
    ReserveValues(s, s', t, D.Min(c.request.count, c.pc.available));
    CallsKept(s, s', t);
  }

  lemma ReservedCarries<T>(s: State<T>, t: nat, s': State<T>)
    requires Shaped(s) && t in s.calls && s.calls[t].pc.Reserve?
    requires s' == ReserveTurn(s, t, s.calls[t], s.calls[t].pc.head, s.calls[t].pc.available)
    requires s.Own(s.calls[t].request.side).head == s.calls[t].pc.head
    requires PositionInv(s, s.calls[t]) && CarriesInv(s, s.calls[t]) && |s.inputs| == s.producers.head
    requires s.producers.frontier <= s.producers.head
    ensures var c := s.calls[t];
            Reserves(s, s', t, D.Min(c.request.count, c.pc.available)) && SameCalls(s, s', t)
    ensures t in s'.calls && CarriesInv(s', s'.calls[t]) && |s'.inputs| == s'.producers.head
    ensures s.calls[t].request.side.Consumer? ==>
              s.consumers.head + D.Min(s.calls[t].request.count, s.calls[t].pc.available) <= s.producers.frontier
  {
  }

  /** A step of a call inside its interval: lanes, inputs and the call's claim stay. */
  ghost predicate StaysInside<T>(s: State<T>, t: nat, s': State<T>) {
    && t in s.calls && t in s'.calls && SameCalls(s, s', t) && Later(s, s')
    && s'.producers == s.producers && s'.consumers == s.consumers && s'.inputs == s.inputs && Shaped(s')
    && s'.n == s.n && InFlight(s.calls[t].pc) && InFlight(s'.calls[t].pc) && s'.calls[t].request == s.calls[t].request
    && s'.calls[t].pc.start == s.calls[t].pc.start && s'.calls[t].pc.count == s.calls[t].pc.count
    && s'.calls[t].left == s.calls[t].left && s'.calls[t].fewest == s.calls[t].fewest && CarriesInv(s', s'.calls[t])
  }

  lemma InsideKeeps<T>(s: State<T>, t: nat, s': State<T>)
    requires Inv(s) && StaysInside(s, t, s') && ValuesInv(s')
    ensures Inv(s')
  {
    hide LaneInv, ValuesInv, Grows, CarriesInv, CallsInv;
    CallFacts(s, t);
    InsidePosition(s, t, s');
    hide PositionInv;
    CallsKept(s, s', t);
  }

  lemma InsidePosition<T>(s: State<T>, t: nat, s': State<T>)
    requires s.n > 0 && StaysInside(s, t, s') && PositionInv(s, s.calls[t])
    ensures PositionInv(s', s'.calls[t])
  {
    hide CarriesInv, Later, SameCalls;
  }

  lemma CopiedKeeps<T>(s: State<T>, t: nat, s': State<T>)
    requires Inv(s) && t in s.calls && s.calls[t].pc.Copy? && s.calls[t].pc.done == s.calls[t].pc.count
    requires s' == CopyTurn(s, t, s.calls[t], s.calls[t].pc.start, s.calls[t].pc.count, s.calls[t].pc.done)
    ensures Inv(s') && Later(s, s')
  {
    hide LaneInv, ValuesInv, PositionInv, CarriesInv, CallsInv, StaysInside, Shifts;
    CallFacts(s, t);
    CopiedShape(s, t, s');
    QuietValues(s, s', t);
    InsideKeeps(s, t, s');
  }

  lemma CopiedShape<T>(s: State<T>, t: nat, s': State<T>)
    requires Shaped(s) && t in s.calls && s.calls[t].pc.Copy? && s.calls[t].pc.done == s.calls[t].pc.count
    requires s' == CopyTurn(s, t, s.calls[t], s.calls[t].pc.start, s.calls[t].pc.count, s.calls[t].pc.done)
    requires CarriesInv(s, s.calls[t])
    ensures Shifts(s, s', t) && StaysInside(s, t, s') && Later(s, s')
  {
    hide Slot, Grows;
    GrowsReflexive(s.producers);
    GrowsReflexive(s.consumers);
  }

  lemma WriteKeeps<T>(s: State<T>, t: nat, s': State<T>)
    requires Inv(s) && t in s.calls && s.calls[t].pc.Copy? && s.calls[t].pc.done < s.calls[t].pc.count
    requires s.calls[t].request.side.Producer?
    requires s' == CopyTurn(s, t, s.calls[t], s.calls[t].pc.start, s.calls[t].pc.count, s.calls[t].pc.done)
    ensures Inv(s') && Later(s, s')
  {
    hide LaneInv, ValuesInv, PositionInv, CallsInv, StaysInside, Writes;
    var c, pc := s.calls[t], s.calls[t].pc;
    CallFacts(s, t);
    WriteShape(s, t, s');
    hide CarriesInv;
    WriteValues(s, s', t, pc.start + pc.done, c.values[pc.done]);
    InsideKeeps(s, t, s');
  }

  lemma WriteShape<T>(s: State<T>, t: nat, s': State<T>)
    requires Shaped(s) && t in s.calls && s.calls[t].pc.Copy? && s.calls[t].pc.done < s.calls[t].pc.count
    requires s.calls[t].request.side.Producer? && CarriesInv(s, s.calls[t])
    requires s' == CopyTurn(s, t, s.calls[t], s.calls[t].pc.start, s.calls[t].pc.count, s.calls[t].pc.done)
    ensures var c, pc := s.calls[t], s.calls[t].pc;
            pc.done < |c.values| && Writes(s, s', t, pc.start + pc.done, c.values[pc.done])
    ensures StaysInside(s, t, s') && Later(s, s')
  {
    var c, pc := s.calls[t], s.calls[t].pc;
    hide Slot, Grows;
    GrowsReflexive(s.producers);
    GrowsReflexive(s.consumers);
    assert s.inputs[pc.start..pc.start + pc.count][pc.done] == c.values[..pc.count][pc.done];
  }

  lemma ReadKeeps<T>(s: State<T>, t: nat, s': State<T>)
    requires Inv(s) && t in s.calls && s.calls[t].pc.Copy? && s.calls[t].pc.done < s.calls[t].pc.count
    requires s.calls[t].request.side.Consumer?
    requires s' == CopyTurn(s, t, s.calls[t], s.calls[t].pc.start, s.calls[t].pc.count, s.calls[t].pc.done)
    ensures Inv(s') && Later(s, s')
  {
    hide LaneInv, PositionInv, CarriesInv, CallsInv, StaysInside, Reads;
    var q := s.calls[t].pc.start + s.calls[t].pc.done;
    CallFacts(s, t);
    assert Unread(s.calls[t], q);
    assert Holds(s, q) && q !in s.outputs;
    hide ValuesInv;
    ReadShape(s, t, s');
    ReadValues(s, s', t, q);
    InsideKeeps(s, t, s');
  }

  lemma ReadShape<T>(s: State<T>, t: nat, s': State<T>)
    requires Shaped(s) && t in s.calls && s.calls[t].pc.Copy? && s.calls[t].pc.done < s.calls[t].pc.count
    requires s.calls[t].request.side.Consumer? && CarriesInv(s, s.calls[t])
    requires Holds(s, s.calls[t].pc.start + s.calls[t].pc.done)
    requires s.calls[t].pc.start + s.calls[t].pc.done !in s.outputs
    requires s' == CopyTurn(s, t, s.calls[t], s.calls[t].pc.start, s.calls[t].pc.count, s.calls[t].pc.done)
    ensures Reads(s, s', t, s.calls[t].pc.start + s.calls[t].pc.done)
    ensures StaysInside(s, t, s') && Later(s, s')
  {
    hide Slot, Grows;
    GrowsReflexive(s.producers);
    GrowsReflexive(s.consumers);
  }

  lemma ClearKeeps<T>(s: State<T>, t: nat, s': State<T>)
    requires Inv(s) && t in s.calls && s.calls[t].pc.Clear?
    requires s' == ClearTurn(s, t, s.calls[t], s.calls[t].pc.start, s.calls[t].pc.count, s.calls[t].pc.done)
    ensures Inv(s') && Later(s, s')
  {
    hide LaneInv, ValuesInv, PositionInv, CarriesInv, CallsInv, StaysInside, Shifts, Writes;
    CallFacts(s, t);
    ClearShape(s, t, s');
    if s.calls[t].pc.done < s.calls[t].pc.count {
      WriteValues(s, s', t, s.calls[t].pc.start + s.calls[t].pc.done, s.zero);
    } else {
      QuietValues(s, s', t);
    }
    InsideKeeps(s, t, s');
  }

  lemma ClearShape<T>(s: State<T>, t: nat, s': State<T>)
    requires Shaped(s) && t in s.calls && s.calls[t].pc.Clear? && CarriesInv(s, s.calls[t])
    requires s' == ClearTurn(s, t, s.calls[t], s.calls[t].pc.start, s.calls[t].pc.count, s.calls[t].pc.done)
    ensures StaysInside(s, t, s') && Later(s, s')
    ensures if s.calls[t].pc.done < s.calls[t].pc.count
            then Writes(s, s', t, s.calls[t].pc.start + s.calls[t].pc.done, s.zero) else Shifts(s, s', t)
  {
    hide Slot, Grows;
    GrowsReflexive(s.producers);
    GrowsReflexive(s.consumers);
  }

  lemma PublishKeeps<T>(s: State<T>, t: nat, s': State<T>)
    requires Inv(s) && t in s.calls && s.calls[t].pc.Publish? && s' == PublishTurn(s, t, s.calls[t])
    ensures Inv(s') && Later(s, s')
  {
    hide LaneInv, ValuesInv, Later, PositionInv, CarriesInv, CallsInv;
    CallFacts(s, t);
    PublishedTurn(s, t, s.calls[t]);
    PublishedCarries(s, t, s');
    PublishValues(s, s', t);
    CallsKept(s, s', t);
  }

  lemma PublishedCarries<T>(s: State<T>, t: nat, s': State<T>)
    requires Shaped(s) && t in s.calls && s.calls[t].pc.Publish? && s' == PublishTurn(s, t, s.calls[t])
    requires CarriesInv(s, s.calls[t])
    ensures CarriesInv(s', s'.calls[t]) && SameCalls(s, s', t)
    ensures s'.inputs == s.inputs && s'.producers.head == s.producers.head
  {
  }

  /** The invariant is kept by every step, and no step undoes anything. */
  lemma TurnKeeps<T>(s: State<T>, t: nat, s': State<T>)
    requires Inv(s) && Enabled(s, Go(t)) && s' == Turn(s, t)
    ensures Inv(s') && Later(s, s')
  {
    hide LaneInv, ValuesInv, Later, PositionInv, CallsInv;
    var c := s.calls[t];
    CallFacts(s, t);
    match c.pc {
      case LoadHead => LoadKeeps(s, t);
      case LoadOpposite(_) => LoadKeeps(s, t);
      case Advance(_, scan) => if scan.Final? { AdvancedKeeps(s, t); } else { ScanKeeps(s, t, s'); }
      case Reserve(head, _) =>
        if s.Own(c.request.side).head == head {
          ReserveKeepsInv(s, t, s');
        } else {
          RetryKeeps(s, t);
        }
      case Copy(start, count, done) =>
        if done == count {
          CopiedKeeps(s, t, s');
        } else if c.request.side.Producer? {
          WriteKeeps(s, t, s');
        } else {
          ReadKeeps(s, t, s');
        }
      case Clear(_, _, _) => ClearKeeps(s, t, s');
      case Publish(_, _) => PublishKeeps(s, t, s');
    }
  }

  lemma RetryKeeps<T>(s: State<T>, t: nat)
    requires Inv(s) && t in s.calls && s.calls[t].pc.Reserve?
    ensures Inv(s.With(t, s.calls[t].(pc := LoadHead))) && Later(s, s.With(t, s.calls[t].(pc := LoadHead)))
  {
    hide LaneInv, ValuesInv, Later, CallsInv;
    CallFacts(s, t);
    LocalKeeps(s, t, s.calls[t].(pc := LoadHead));
  }

  lemma NextKeeps<T(!new)>(s: State<T>, s': State<T>)
    requires Inv(s) && Next(s, s')
    ensures Inv(s') && Later(s, s')
  {
    hide Inv, Later, Turn;
    var a :| Enabled(s, a) && s' == Apply(s, a);
    if a.Go? {
      TurnKeeps(s, a.t, s');
    } else {
      EdgeKeeps(s, a, s');
    }
  }

  lemma LaterTransitive<T>(a: State<T>, b: State<T>, c: State<T>)
    requires Later(a, b) && Later(b, c)
    ensures Later(a, c)
  {
    GrowsTransitive(a.producers, b.producers, c.producers);
    GrowsTransitive(a.consumers, b.consumers, c.consumers);
    hide Grows;
    assert c.inputs[..|a.inputs|] == c.inputs[..|b.inputs|][..|a.inputs|];
  }

  /** The invariant holds in every state of every run. */
  lemma {:induction false} RunInv<T(!new)>(run: seq<State<T>>, i: nat)
    requires Run(run) && i < |run|
    ensures Inv(run[i])
  {
    hide Inv;
    if i == 0 {
      InitInv(run[0]);
    } else {
      RunInv(run, i - 1);
      assert Next(run[i - 1], run[i - 1 + 1]);
      NextKeeps(run[i - 1], run[i]);
    }
  }

  lemma {:induction false} RunLater<T(!new)>(run: seq<State<T>>, i: nat, j: nat)
    requires Run(run) && i <= j < |run|
    ensures Later(run[i], run[j])
    decreases j
  {
    hide Inv, Later;
    if i == j {
      LaterReflexive(run[i], run[i]);
    } else {
      RunLater(run, i, j - 1);
      RunInv(run, j - 1);
      assert Next(run[j - 1], run[j - 1 + 1]);
      NextKeeps(run[j - 1], run[j]);
      LaterTransitive(run[i], run[j - 1], run[j]);
    }
  }

  // ---------------------------------------------------------------------------------------
  // The promises

  /** The four positions stay ordered within one lap and never move back. */
  lemma PositionsOrdered<T(!new)>(run: seq<State<T>>, i: nat, j: nat)
    requires Run(run) && i <= j < |run|
    ensures var s := run[i];
            s.consumers.frontier <= s.consumers.head <= s.producers.frontier <= s.producers.head <= s.consumers.frontier + s.n
    ensures run[i].producers.head <= run[j].producers.head && run[i].producers.frontier <= run[j].producers.frontier
    ensures run[i].consumers.head <= run[j].consumers.head && run[i].consumers.frontier <= run[j].consumers.frontier
  {
    hide Inv, Later;
    RunInv(run, i);
    RunLater(run, i, j);
    InvPositions(run[i]);
    LaterPositions(run[i], run[j]);
  }

  lemma InvPositions<T>(s: State<T>)
    requires Inv(s)
    ensures s.consumers.frontier <= s.consumers.head <= s.producers.frontier <= s.producers.head
              <= s.consumers.frontier + s.n
  {
    hide CallsInv, ValuesInv, Tiled, RecordsInv;
  }

  lemma LaterPositions<T>(s: State<T>, s': State<T>)
    requires Later(s, s')
    ensures s.producers.head <= s'.producers.head && s.producers.frontier <= s'.producers.frontier
    ensures s.consumers.head <= s'.consumers.head && s.consumers.frontier <= s'.consumers.frontier
  {
  }

  /** FIFO: whatever is read at a position is what was enqueued at that position. A returned dequeue
      carries exactly the inputs of its interval, an enqueue has put its items there in order, and
      neither inputs nor outputs are ever rewritten. */
  lemma Fifo<T(!new)>(run: seq<State<T>>, i: nat, j: nat)
    requires Run(run) && i <= j < |run|
    ensures forall p | p in run[i].outputs ::
              p < run[i].consumers.head <= |run[i].inputs| && run[i].outputs[p] == run[i].inputs[p]
    ensures forall t | t in run[i].calls && run[i].calls[t].pc.Return? ::
              var c := run[i].calls[t];
              && c.pc.start + c.pc.count <= |run[i].inputs|
              && c.pc.count <= |c.values|
              && run[i].inputs[c.pc.start..c.pc.start + c.pc.count] ==
                   (if c.request.side.Consumer? then c.values else c.values[..c.pc.count])
    ensures run[i].inputs <= run[j].inputs
    ensures forall p | p in run[i].outputs :: p in run[j].outputs && run[j].outputs[p] == run[i].outputs[p]
  {
    hide Inv, Later;
    RunInv(run, i);
    RunLater(run, i, j);
    LaterInputs(run[i], run[j]);
    InvFifo(run[i]);
  }

  lemma LaterInputs<T>(s: State<T>, s': State<T>)
    requires Later(s, s')
    ensures s.inputs <= s'.inputs
    ensures forall p | p in s.outputs :: p in s'.outputs && s'.outputs[p] == s.outputs[p]
  {
    hide Grows;
  }

  lemma InvFifo<T>(s: State<T>)
    requires Inv(s)
    ensures forall p | p in s.outputs :: p < s.consumers.head <= |s.inputs| && s.outputs[p] == s.inputs[p]
    ensures forall t | t in s.calls && s.calls[t].pc.Return? ::
              var c := s.calls[t];
              && c.pc.start + c.pc.count <= |s.inputs|
              && c.pc.count <= |c.values|
              && s.inputs[c.pc.start..c.pc.start + c.pc.count] ==
                   (if c.request.side.Consumer? then c.values else c.values[..c.pc.count])
  {
    hide OwnedInv, HeldInv, LiveInv, WaitingInv, Tiled, RecordsInv, PositionInv;
  }

  /** With no consumer inside an interval, the outputs in position order are exactly the first
      inputs: nothing is lost, duplicated or reordered. */
  lemma OutputsArePrefix<T(!new)>(run: seq<State<T>>, i: nat)
    requires Run(run) && i < |run|
    requires forall t | t in run[i].calls && run[i].calls[t].request.side.Consumer? :: !InFlight(run[i].calls[t].pc)
    ensures forall p :: p in run[i].outputs <==> 0 <= p < run[i].consumers.head
    ensures run[i].consumers.head <= |run[i].inputs|
    ensures seq(run[i].consumers.head, p requires p in run[i].outputs => run[i].outputs[p])
         == run[i].inputs[..run[i].consumers.head]
  {
    hide Inv;
    RunInv(run, i);
    AllRead(run[i]);
  }

  lemma AllRead<T>(s: State<T>)
    requires Inv(s)
    requires forall t | t in s.calls && s.calls[t].request.side.Consumer? :: !InFlight(s.calls[t].pc)
    ensures forall p :: p in s.outputs <==> 0 <= p < s.consumers.head
    ensures forall p | p in s.outputs :: p < |s.inputs| && s.outputs[p] == s.inputs[p]
    ensures s.consumers.head <= |s.inputs|
  {
    hide OwnedInv, HeldInv, LiveInv, WaitingInv, Tiled, RecordsInv, PositionInv, CarriesInv;
    assert forall p :: !Reading(s, p);
  }

  /** With no call inside an interval, every reservation on both sides has its record in place,
      so both frontiers can be advanced to their heads. */
  lemma NothingHeldBack<T(!new)>(run: seq<State<T>>, i: nat, side: Side)
    requires Run(run) && i < |run|
    requires forall t | t in run[i].calls :: !InFlight(run[i].calls[t].pc)
    ensures Proven(run[i].Own(side), run[i].Own(side).head)
  {
    hide Inv;
    RunInv(run, i);
    AllFinished(run[i], side);
  }

  lemma AllFinished<T>(s: State<T>, side: Side)
    requires Inv(s) && forall t | t in s.calls :: !InFlight(s.calls[t].pc)
    ensures Proven(s.Own(side), s.Own(side).head)
  {
    hide OwnedInv, OutputsInv, LiveInv, WaitingInv, Tiled, RecordsInv, PositionInv, CarriesInv;
    forall b | b in s.Own(side).reserved ensures b in s.Own(side).finished {
      assert !Held(s, side, b);
    }
  }

  // ---------------------------------------------------------------------------------------
  // Honest counts

  /** While call `t` of `run[i]` was under way, at `j`, there was no more than `count` to take. */
  ghost predicate Met<T>(run: seq<State<T>>, i: nat, t: nat, j: nat, count: int)
    requires i < |run| && t in run[i].calls
  {
    && j <= i && Available(run[j], run[i].calls[t].request.side) <= count
    && (forall k | j <= k <= i :: t in run[k].calls && run[k].calls[t].request == run[i].calls[t].request)
  }

  /** `fewest` is about an instant of this very call. */
  lemma {:induction false} FewestInstant<T(!new)>(run: seq<State<T>>, i: nat, t: nat) returns (j: nat)
    requires Run(run) && i < |run| && t in run[i].calls
    ensures Met(run, i, t, j, run[i].calls[t].fewest)
  {
    hide Available, Next;
    if i > 0 {
      var s, s' := run[i - 1], run[i - 1 + 1];
      assert Next(s, s');
      FewestStep(s, s', t);
      if t !in s.calls {
        j := i;
      } else if s'.calls[t].fewest == Available(s, s.calls[t].request.side) {
        j := i - 1;
      } else {
        j := FewestInstant(run, i - 1, t);
      }
    }
  }

  lemma FewestStep<T(!new)>(s: State<T>, s': State<T>, t: nat)
    requires Next(s, s') && t in s'.calls
    ensures t !in s.calls ==> s'.calls[t].fewest == Available(s', s'.calls[t].request.side)
    ensures t in s.calls ==>
              && s'.calls[t].request == s.calls[t].request
              && s'.calls[t].fewest in {s.calls[t].fewest, Available(s, s.calls[t].request.side)}
  {
    hide D.Usable, Turn;
    var a :| Enabled(s, a) && s' == Apply(s, a);
    if a.Go? {
      hide Available;
      FewestTurn(s, a.t, s', t);
    }
  }

  /** A step changes no other call, keeps the request, and notes what there was at that instant. */
  ghost predicate Steady<T>(s: State<T>, t: nat, s': State<T>) {
    && SameCalls(s, s', t) && t in s.calls && t in s'.calls && s'.calls[t].request == s.calls[t].request
    && s'.calls[t].fewest in {s.calls[t].fewest, Available(s, s.calls[t].request.side)}
  }

  lemma AdvanceSteady<T>(s: State<T>, t: nat, head: nat, scan: D.Scan)
    requires Shaped(s) && t in s.calls
    ensures Steady(s, t, AdvanceTurn(s, t, s.calls[t], head, scan))
  {
    hide Available, D.Step, D.Moved, D.Sub64;
  }

  lemma ReserveSteady<T>(s: State<T>, t: nat, head: nat, available: nat)
    requires Shaped(s) && t in s.calls
    ensures Steady(s, t, ReserveTurn(s, t, s.calls[t], head, available))
  {
    hide Available;
  }

  lemma CopySteady<T>(s: State<T>, t: nat, start: nat, count: nat, done: nat)
    requires Shaped(s) && t in s.calls
    ensures Steady(s, t, CopyTurn(s, t, s.calls[t], start, count, done))
  {
    hide Available, Slot;
  }

  lemma ClearSteady<T>(s: State<T>, t: nat, start: nat, count: nat, done: nat)
    requires Shaped(s) && t in s.calls
    ensures Steady(s, t, ClearTurn(s, t, s.calls[t], start, count, done))
  {
    hide Available, Slot;
  }

  lemma FewestTurn<T>(s: State<T>, t: nat, s': State<T>, u: nat)
    requires Shaped(s) && t in s.calls && s' == Turn(s, t) && u in s'.calls
    ensures u in s.calls && s'.calls[u].request == s.calls[u].request
    ensures s'.calls[u].fewest in {s.calls[u].fewest, Available(s, s.calls[u].request.side)}
  {
    hide Available, Slot, AdvanceTurn, ReserveTurn, CopyTurn, ClearTurn;
    match s.calls[t].pc {
      case Advance(head, scan) => AdvanceSteady(s, t, head, scan);
      case Reserve(head, available) => ReserveSteady(s, t, head, available);
      case Copy(start, count, done) => CopySteady(s, t, start, count, done);
      case Clear(start, count, done) => ClearSteady(s, t, start, count, done);
      case _ =>
    }
  }

  /** A request that any supply at all can serve: a single transfer, or a burst of at least one. */
  predicate TakesAny(r: Request) {
    r.count > 0 && !r.observe && (r.fixed ==> r.count == 1)
  }

  /** Honest zero progress: a single or burst transfer that moves nothing, and a peek, a Count or a bulk
      transfer that reports nothing, met while it ran an instant with nothing to take. */
  lemma HonestZero<T(!new)>(run: seq<State<T>>, i: nat, t: nat) returns (j: nat)
    requires Run(run) && i < |run| && t in run[i].calls
    requires run[i].calls[t].pc.Return? && run[i].calls[t].pc.count == 0
    requires run[i].calls[t].left == 0 || TakesAny(run[i].calls[t].request)
    ensures Met(run, i, t, j, 0)
  {
    hide Inv, Available;
    RunInv(run, i);
    CallFacts(run[i], t);
    j := FewestInstant(run, i, t);
  }

  /** A transfer that moves fewer than asked, or returns exact counts, met while it ran an instant with no
      more to take than it moved and reports left, whatever the other calls did. A transfer that moves
      fewer than asked leaves nothing, and a bulk transfer moves all or nothing. */
  lemma MovedIsFresh<T(!new)>(run: seq<State<T>>, i: nat, t: nat) returns (j: nat)
    requires Run(run) && i < |run| && t in run[i].calls && run[i].calls[t].pc.Return?
    requires 0 < run[i].calls[t].pc.count
    requires run[i].calls[t].request.exact || run[i].calls[t].pc.count < run[i].calls[t].request.count
    ensures var c := run[i].calls[t];
            && Met(run, i, t, j, c.pc.count + c.left)
            && c.pc.count <= c.request.count && (c.pc.count < c.request.count ==> c.left == 0 && !c.request.fixed)
  {
    hide Inv, Available;
    RunInv(run, i);
    CallFacts(run[i], t);
    j := FewestInstant(run, i, t);
  }

  /** A transfer, peek or Count that moves nothing reports a count that is no less than what there was to
      take at an instant while it ran, unless another call of its side has reserved since its last head
      load. A refused bulk transfer reports fewer than it asked for. */
  lemma ReportIsFresh<T(!new)>(run: seq<State<T>>, i: nat, t: nat) returns (j: nat)
    requires Run(run) && i < |run| && t in run[i].calls
    requires run[i].calls[t].pc.Return? && run[i].calls[t].pc.count == 0
    requires run[i].Own(run[i].calls[t].request.side).head == run[i].calls[t].pc.start
    ensures Met(run, i, t, j, run[i].calls[t].left)
    ensures var r := run[i].calls[t].request;
            r.fixed && r.count > 0 && !r.observe ==> run[i].calls[t].left < r.count
  {
    hide Inv, Available;
    RunInv(run, i);
    CallFacts(run[i], t);
    j := FewestInstant(run, i, t);
  }
}
