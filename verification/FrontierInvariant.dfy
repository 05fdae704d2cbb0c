/** What every step of the multi-producer multi-consumer frontier queue keeps. */
module FrontierInvariant {
  import opened Lanes
  import D = Discovery
  import opened FrontierMPMC

  // ---------------------------------------------------------------------------------------
  // Positions

  /** The four positions: both lanes are sound, and consumers stay behind the completed frontier.
      With the bounds inside LaneInv this orders all four positions within one lap. */
  ghost predicate LanesInv<T>(s: State<T>) {
    && Shaped(s)
    && LaneInv(s.producers, s.n, s.consumers.frontier)
    && LaneInv(s.consumers, s.n, s.consumers.frontier)
    && s.consumers.head <= s.producers.frontier
    && s.producers.head < D.U64
  }

  /** A loaded head is never ahead of its lane, nor of what the opposite frontier admits. */
  ghost predicate HeadInv<T>(s: State<T>, side: Side, head: nat) {
    head <= s.Own(side).head && head <= s.Opposite(side).frontier + Lead(side, s.n)
  }

  predicate InFlight(pc: PC) {
    pc.Copy? || pc.Clear? || pc.Publish?
  }

  /** What the result of a call says about what there was to take. What it moved and left ends within what
      the opposite frontier admits. A call that moved fewer than asked, or was to return exact counts, met an
      instant with no more than it moved and left. So did a call that moved nothing, if it reports nothing
      left or no other call of its side has moved the head since it was loaded. */
  ghost predicate ReportInv<T>(s: State<T>, c: Call<T>, start: nat, count: nat) {
    var r := c.request;
    && start + count + c.left <= s.Opposite(r.side).frontier + Lead(r.side, s.n)
    && (count > 0 ==> !r.observe && count <= r.count && (r.fixed ==> count == r.count) && (count < r.count ==> c.left == 0))
    && (count > 0 && (r.exact || count < r.count) ==> c.fewest <= count + c.left)
    && (count == 0 && (c.left == 0 || s.Own(r.side).head == start) ==> c.fewest <= c.left)
    && (count == 0 && r.count > 0 && !r.observe ==> if r.fixed then c.left < r.count else c.left == 0)
  }

  ghost predicate PositionInv<T>(s: State<T>, c: Call<T>)
    requires s.n > 0
  {
    var side := c.request.side;
    var own, opp, lead := s.Own(side), s.Opposite(side), Lead(side, s.n);
    && c.left <= s.n
    && c.fewest <= s.n
    && c.request.count <= s.n
    && (c.request.observe ==> side.Consumer?)
    && (InFlight(c.pc) ==>
          && c.pc.count > 0 && c.pc.start in own.reserved && own.reserved[c.pc.start] == c.pc.start + c.pc.count
          && ReportInv(s, c, c.pc.start, c.pc.count))
    && match c.pc
       case LoadOpposite(head) => HeadInv(s, side, head) && !c.request.observe
       case Advance(head, scan) =>
         && HeadInv(s, side, head)
         && D.ScanInv(opp, s.n, scan)
         && D.Above(scan, head - lead)
         && (own.head == head ==> D.Honest(s.n, scan, head - lead, c.fewest))
       case Reserve(head, available) =>
         && head <= own.head && head + available <= opp.frontier + lead
         && 0 < available <= s.n && 0 < c.request.count && !c.request.observe
         && (c.request.fixed ==> c.request.count <= available)
         && ((c.request.exact || available < c.request.count) && own.head == head ==> c.fewest <= available)
       case Return(start, count) => ReportInv(s, c, start, count) && (count == 0 ==> start <= own.head)
       case _ => true
  }

  /** What no step undoes. */
  ghost predicate Later<T>(s: State<T>, s': State<T>) {
    && s'.n == s.n && s'.clearing == s.clearing && s'.zero == s.zero
    && Grows(s.producers, s'.producers)
    && Grows(s.consumers, s'.consumers)
    && |s.inputs| <= |s'.inputs| && s'.inputs[..|s.inputs|] == s.inputs
    && (forall p | p in s.outputs :: p in s'.outputs && s'.outputs[p] == s.outputs[p])
  }

  lemma HeadStable<T>(s: State<T>, s': State<T>, side: Side, head: nat)
    requires HeadInv(s, side, head)
    requires s'.n == s.n && Grows(s.producers, s'.producers) && Grows(s.consumers, s'.consumers)
    ensures HeadInv(s', side, head)
  {
  }

  lemma PositionStable<T>(s: State<T>, s': State<T>, c: Call<T>)
    requires s.n > 0 && PositionInv(s, c)
    requires s'.n == s.n && Grows(s.producers, s'.producers) && Grows(s.consumers, s'.consumers)
    ensures PositionInv(s', c)
  {
    var side := c.request.side;
    if c.pc.Advance? {
      D.ScanStable(s.Opposite(side), s'.Opposite(side), s.n, c.pc.scan);
    }
  }

  /** The admitted room is exact: no subtraction wraps, and the room ends at the opposite
      frontier plus the side's lead. */
  lemma AdmitsExactly(side: Side, n: nat, head: nat, frontier: nat)
    requires n <= 0x4000_0000 && head <= frontier + Lead(side, n) && head < D.U64 && frontier < D.U64
    ensures Admits(side, n, head, frontier).Stale? <==> frontier + Lead(side, n) - head > n
    ensures Admits(side, n, head, frontier).Room? ==>
              Admits(side, n, head, frontier).count == frontier + Lead(side, n) - head <= n
  {
  }

  lemma DecidePosition<T>(s: State<T>, c: Call<T>, head: nat, room: nat)
    requires s.n > 0 && PositionInv(s, c) && !InFlight(c.pc)
    requires head <= s.Own(c.request.side).head && room <= s.n
    requires head + room <= s.Opposite(c.request.side).frontier + Lead(c.request.side, s.n)
    requires c.request.exact || room < c.request.count || c.request.count == 0 ==>
               (room == 0 || s.Own(c.request.side).head == head ==> c.fewest <= room)
    requires !c.request.observe
    ensures PositionInv(s, Decide(c, head, room))
  {
  }

  ghost predicate Bounded<T>(s: State<T>, side: Side) {
    && 0 < s.n <= 0x4000_0000
    && s.Own(side).head < D.U64
    && s.Opposite(side).frontier <= s.Opposite(side).head < D.U64
  }

  lemma OppositePosition<T>(s: State<T>, c: Call<T>)
    requires Bounded(s, c.request.side) && PositionInv(s, c) && c.pc.LoadOpposite?
    ensures PositionInv(s, AfterOpposite(c, s.n, c.pc.head, s.Opposite(c.request.side).frontier))
  {
    var side, head := c.request.side, c.pc.head;
    var frontier := s.Opposite(side).frontier;
    AdmitsExactly(side, s.n, head, frontier);
    var room := frontier + Lead(side, s.n) - head;
    if Admits(side, s.n, head, frontier).Room? && 0 < c.request.count <= room && !c.request.exact {
      DecidePosition(s, c, head, room);
    }
  }

  lemma AdvancedPosition<T>(s: State<T>, c: Call<T>)
    requires Bounded(s, c.request.side) && PositionInv(s, c) && c.pc.Advance? && c.pc.scan.Final?
    requires s.Own(c.request.side).head <= s.Opposite(c.request.side).frontier + Lead(c.request.side, s.n)
    ensures PositionInv(s, AfterAdvance(c, s.n, c.pc.head, s.Opposite(c.request.side).frontier))
  {
    var side, head := c.request.side, c.pc.head;
    var frontier := s.Opposite(side).frontier;
    AdmitsExactly(side, s.n, head, frontier);
    if !c.request.observe && Admits(side, s.n, head, frontier).Room? {
      DecidePosition(s, c, head, frontier + Lead(side, s.n) - head);
    }
  }

  lemma OwnBounded<T>(s: State<T>, side: Side)
    requires LanesInv(s)
    ensures Bounded(s, side)
    ensures s.Own(side).head <= s.Opposite(side).frontier + Lead(side, s.n)
    ensures LaneInv(s.Own(side), s.n, s.consumers.frontier) && LaneInv(s.Opposite(side), s.n, s.consumers.frontier)
  {
  }

  /** Raising the frontier of the opposite lane. */
  lemma RaisedLanes<T>(s: State<T>, side: Side, l: Lane)
    requires LanesInv(s) && LaneInv(l, s.n, s.consumers.frontier) && Grows(s.Opposite(side), l)
    requires l.head == s.Opposite(side).head
    ensures LanesInv(s.WithOpposite(side, l))
  {
    if side.Producer? {
      ReuseKeeps(s.producers, s.n, s.consumers.frontier, l.frontier);
      ReuseKeeps(l, s.n, s.consumers.frontier, l.frontier);
    }
  }

  lemma AvailableBounded<T>(s: State<T>, side: Side)
    requires LanesInv(s)
    ensures Available(s, side) <= s.n
    ensures s.Own(side).head + Available(s, side) == D.Usable(s.Opposite(side)) + Lead(side, s.n)
  {
    var opp := s.Opposite(side);
    OwnBounded(s, side);
    assert forall p: nat | p < opp.frontier :: !D.Blocked(opp, p);
  }

  lemma ScanPosition<T>(s: State<T>, c: Call<T>, s': State<T>)
    requires LanesInv(s) && PositionInv(s, c) && c.pc.Advance? && !c.pc.scan.Final?
    requires s'.n == s.n && Grows(s.producers, s'.producers) && Grows(s.consumers, s'.consumers)
    requires s'.Opposite(c.request.side) == D.Moved(s.Opposite(c.request.side), c.pc.scan)
    ensures PositionInv(s', c.(pc := Advance(c.pc.head, D.Step(s.Opposite(c.request.side), s.n, c.pc.scan)),
                               fewest := D.Min(c.fewest, Available(s, c.request.side))))
  {
    hide LaneInv, D.Step, D.ScanInv, D.Above, D.Honest, D.Moved, Available;
    var side, head := c.request.side, c.pc.head;
    HeadStable(s, s', side, head);
    ScanProves(s, side, head, c.pc.scan);
    if s.Own(side).head == head {
      ScanCounts(s, side, c.pc.scan, c.fewest);
    }
    AvailableBounded(s, side);
  }

  lemma ScanProves<T>(s: State<T>, side: Side, head: nat, scan: D.Scan)
    requires LanesInv(s) && HeadInv(s, side, head) && D.ScanInv(s.Opposite(side), s.n, scan)
    requires D.Above(scan, head - Lead(side, s.n))
    ensures var opp := s.Opposite(side);
            && D.ScanInv(D.Moved(opp, scan), s.n, D.Step(opp, s.n, scan))
            && D.Above(D.Step(opp, s.n, scan), head - Lead(side, s.n))
  {
    hide LaneInv, D.Step, D.ScanInv, D.Above, D.Moved;
    var opp, low := s.Opposite(side), s.consumers.frontier;
    OwnBounded(s, side);
    D.StepKeeps(opp, s.n, low, scan);
    D.StepAbove(opp, s.n, scan, head - Lead(side, s.n));
  }

  /** While the caller's head is still the head of its lane, the slots its advance looks at are not in
      use for a later lap. */
  lemma ScanCounts<T>(s: State<T>, side: Side, scan: D.Scan, fewest: nat)
    requires LanesInv(s) && D.ScanInv(s.Opposite(side), s.n, scan)
    requires D.Above(scan, s.Own(side).head - Lead(side, s.n))
    requires D.Honest(s.n, scan, s.Own(side).head - Lead(side, s.n), fewest)
    ensures D.Honest(s.n, D.Step(s.Opposite(side), s.n, scan), s.Own(side).head - Lead(side, s.n),
                     D.Min(fewest, Available(s, side)))
  {
    hide LaneInv, D.Step, D.ScanInv, D.Above, Available;
    var opp, floor, fewest' := s.Opposite(side), s.Own(side).head - Lead(side, s.n), D.Min(fewest, Available(s, side));
    OwnBounded(s, side);
    AvailableBounded(s, side);
    FewerHonest(s.n, scan, floor, fewest, fewest');
    hide D.Honest;
    OppositeLap(s, side);
    D.StepHonest(opp, s.n, s.consumers.frontier, scan, floor, fewest');
  }

  lemma FewerHonest(n: nat, scan: D.Scan, floor: int, fewest: nat, fewest': nat)
    requires D.Honest(n, scan, floor, fewest) && fewest' <= fewest
    ensures D.Honest(n, scan, floor, fewest')
  {
  }

  lemma OppositeLap<T>(s: State<T>, side: Side)
    requires LanesInv(s)
    ensures s.Opposite(side).head <= s.Own(side).head - Lead(side, s.n) + s.n
  {
  }

  lemma ScanTurn<T>(s: State<T>, t: nat, c: Call<T>, s': State<T>)
    requires LanesInv(s) && PositionInv(s, c) && c.pc.Advance? && !c.pc.scan.Final?
    requires s' == AdvanceTurn(s, t, c, c.pc.head, c.pc.scan)
    ensures LanesInv(s') && Later(s, s') && PositionInv(s', s'.calls[t])
  {
    hide LaneInv, Grows, D.Step, D.ScanInv, D.Above, D.Honest, D.Moved, Available;
    var side, scan := c.request.side, c.pc.scan;
    var opp := s.Opposite(side);
    OwnBounded(s, side);
    D.MovedKeeps(opp, s.n, s.consumers.frontier, scan);
    hide PositionInv;
    RaisedLanes(s, side, D.Moved(opp, scan));
    GrowsReflexive(s.producers);
    GrowsReflexive(s.consumers);
    ScanPosition(s, c, s');
  }

  lemma ReservedLanes<T>(s: State<T>, side: Side, count: nat)
    requires LanesInv(s) && 0 < count
    requires s.Own(side).head + count <= s.Opposite(side).frontier + Lead(side, s.n)
    requires s.Own(side).head + count < D.U64
    ensures LanesInv(s.WithOwn(side, s.Own(side).Reserve(count)))
    ensures Grows(s.Own(side), s.Own(side).Reserve(count))
  {
    ReserveKeeps(s.Own(side), s.n, s.consumers.frontier, count);
  }

  lemma ReservedShape<T>(s: State<T>, t: nat, c: Call<T>, s': State<T>, count: nat)
    requires c.pc.Reserve? && s.Own(c.request.side).head == c.pc.head && count == D.Min(c.request.count, c.pc.available)
    requires s' == ReserveTurn(s, t, c, c.pc.head, c.pc.available)
    ensures s'.n == s.n && s'.clearing == s.clearing && s'.zero == s.zero && s'.entries == s.entries
    ensures s'.outputs == s.outputs && s.inputs <= s'.inputs
    ensures s'.Own(c.request.side) == s.Own(c.request.side).Reserve(count)
    ensures s'.Opposite(c.request.side) == s.Opposite(c.request.side)
    ensures t in s'.calls && s'.calls[t] == c.(pc := Copy(c.pc.head, count, 0), left := c.pc.available - count)
  {
  }

  lemma ReservedPosition<T>(s: State<T>, c: Call<T>, s': State<T>, c': Call<T>, count: nat)
    requires s.n > 0 && PositionInv(s, c) && c.pc.Reserve? && s.Own(c.request.side).head == c.pc.head
    requires count == D.Min(c.request.count, c.pc.available)
    requires s'.n == s.n && s'.Own(c.request.side) == s.Own(c.request.side).Reserve(count)
    requires s'.Opposite(c.request.side) == s.Opposite(c.request.side)
    requires c' == c.(pc := Copy(c.pc.head, count, 0), left := c.pc.available - count)
    ensures PositionInv(s', c')
    ensures 0 < count <= s.n && c.pc.head + count <= s.Opposite(c.request.side).frontier + Lead(c.request.side, s.n)
  {
  }

  lemma ReservedTurn<T>(s: State<T>, t: nat, c: Call<T>, s': State<T>)
    requires LanesInv(s) && PositionInv(s, c) && c.pc.Reserve? && s.Own(c.request.side).head == c.pc.head
    requires c.pc.head + s.n < D.U64 && s' == ReserveTurn(s, t, c, c.pc.head, c.pc.available)
    ensures LanesInv(s') && Later(s, s') && PositionInv(s', s'.calls[t])
  {
    hide LaneInv, Grows, PositionInv, ReserveTurn;
    var count := D.Min(c.request.count, c.pc.available);
    ReservedShape(s, t, c, s', count);
    ReservedPosition(s, c, s', s'.calls[t], count);
    GrowsReflexive(s.producers);
    GrowsReflexive(s.consumers);
    ReservedLanes(s, c.request.side, count);
  }

  function PublishTurn<T>(s: State<T>, t: nat, c: Call<T>): State<T>
    requires Shaped(s) && c.pc.Publish?
  {
    s.WithOwn(c.request.side, s.Own(c.request.side).Finish(c.pc.start, c.pc.start + c.pc.count))
     .With(t, c.(pc := Return(c.pc.start, c.pc.count)))
  }

  lemma PublishedTurn<T>(s: State<T>, t: nat, c: Call<T>)
    requires LanesInv(s) && PositionInv(s, c) && c.pc.Publish? && c.pc.start !in s.Own(c.request.side).finished
    ensures LanesInv(PublishTurn(s, t, c))
    ensures Later(s, PublishTurn(s, t, c))
    ensures PositionInv(PublishTurn(s, t, c), PublishTurn(s, t, c).calls[t])
  {
    hide LaneInv, Grows;
    GrowsReflexive(s.producers);
    GrowsReflexive(s.consumers);
    FinishKeeps(s.Own(c.request.side), s.n, s.consumers.frontier, c.pc.start);
  }
}
