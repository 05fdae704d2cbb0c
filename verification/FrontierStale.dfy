/** Runs in which a call of the multi-producer multi-consumer frontier queue reports less than there is to take
    from its first step to its last, and for which requests there are such runs. */
module FrontierStale {
  import opened Lanes
  import D = Discovery
  import opened FrontierMPMC
  import opened FrontierInvariant
  import opened FrontierSteps
  import opened FrontierTheorems
  import opened FrontierBulk

  // ---------------------------------------------------------------------------------------
  // Building runs

  ghost function Last<T>(run: seq<State<T>>): State<T>
    requires |run| > 0
  {
    run[|run| - 1]
  }

  lemma Extended<T(!new)>(run: seq<State<T>>, a: Action<T>)
    requires Run(run) && Shaped(Last(run)) && Enabled(Last(run), a)
    ensures Run(run + [Apply(Last(run), a)])
  {
    hide Init, Enabled, Apply, Shaped;
    var run' := run + [Apply(Last(run), a)];
    assert Next(run'[|run| - 1], run'[|run|]);
    forall i | 0 <= i < |run'| - 1 ensures Next(run'[i], run'[i + 1]) {
      if i < |run| - 1 {
        assert Next(run[i], run[i + 1]);
      }
    }
  }

  /** Call `t` takes its next step. */
  lemma Goes<T(!new)>(run: seq<State<T>>, t: nat) returns (run': seq<State<T>>)
    requires Run(run) && Shaped(Last(run)) && Enabled(Last(run), Go(t))
    ensures Run(run') && run < run' && Last(run') == Turn(Last(run), t)
  {
    hide Next, Init, Shaped, Enabled, Turn;
    Extended(run, Go(t));
    run' := run + [Apply(Last(run), Go(t))];
  }

  /** The same queue in a later state, in which only call `t` has moved. */
  ghost predicate Keeps<T>(s: State<T>, t: nat, s': State<T>) {
    && Shaped(s') && s'.n == s.n && s'.clearing == s.clearing && SameCalls(s, s', t) && t in s.calls && t in s'.calls
    && s'.calls[t].request == s.calls[t].request && |s.calls[t].values| <= |s'.calls[t].values|
  }

  ghost predicate SameLanes<T>(s: State<T>, s': State<T>) {
    s'.producers == s.producers && s'.consumers == s.consumers
  }

  predicate Legal(n: nat, r: Request) {
    r.count <= n && (r.observe ==> r.side.Consumer?)
  }

  /** A legal transfer request that takes what the shared frontier shows. */
  predicate Transfer<T>(s: State<T>, r: Request) {
    0 < r.count <= s.n && !r.observe && !r.exact && !s.clearing
  }

  lemma Begins<T(!new)>(run: seq<State<T>>, t: nat, r: Request) returns (run': seq<State<T>>)
    requires Run(run) && Shaped(Last(run)) && !Last(run).clearing && Legal(Last(run).n, r) && t !in Last(run).calls
    ensures Run(run') && run < run' && SameLanes(Last(run), Last(run')) && SameCalls(Last(run), Last(run'), t)
    ensures Shaped(Last(run')) && Last(run').n == Last(run).n && !Last(run').clearing
    ensures t in Last(run').calls && Last(run').calls[t].request == r && Last(run').calls[t].pc == LoadHead
    ensures r.side.Producer? ==> |Last(run').calls[t].values| == r.count
  {
    hide Next, Init, Available;
    var values := if r.side.Producer? then seq(r.count, _ => Last(run).zero) else [];
    Extended(run, Begin(t, r, values));
    run' := run + [Apply(Last(run), Begin(t, r, values))];
  }

  // ---------------------------------------------------------------------------------------
  // Single steps

  lemma HeadLoaded<T>(s: State<T>, t: nat, s': State<T>)
    requires Shaped(s) && t in s.calls && s.calls[t].pc.LoadHead? && s' == Turn(s, t)
    ensures Keeps(s, t, s') && SameLanes(s, s')
    ensures var head := s.Own(s.calls[t].request.side).head;
            s'.calls[t].pc == if s.calls[t].request.observe then Advance(head, D.LoadFrontier) else LoadOpposite(head)
  {
    hide Available;
  }

  /** The room that a loaded head has up to the opposite frontier. */
  function RoomAt<T>(s: State<T>, side: Side, head: nat): int {
    s.Opposite(side).frontier + Lead(side, s.n) - head
  }

  lemma OppositeLoaded<T>(s: State<T>, t: nat, s': State<T>)
    requires Shaped(s) && t in s.calls && s.calls[t].pc.LoadOpposite? && s' == Turn(s, t)
    requires s.calls[t].pc.head < D.U64 && s.Opposite(s.calls[t].request.side).frontier < D.U64
    requires 0 <= RoomAt(s, s.calls[t].request.side, s.calls[t].pc.head) <= s.n
    ensures Keeps(s, t, s') && SameLanes(s, s')
    ensures var c := s.calls[t];
            var room := RoomAt(s, c.request.side, c.pc.head);
            s'.calls[t].pc ==
              if c.request.exact || c.request.count == 0 || room < c.request.count then Advance(c.pc.head, D.LoadFrontier)
              else Reserve(c.pc.head, room)
  {
    hide Available, D.Sub64;
    AdmitsExactly(s.calls[t].request.side, s.n, s.calls[t].pc.head, s.Opposite(s.calls[t].request.side).frontier);
  }

  lemma Scanned<T>(s: State<T>, t: nat, s': State<T>, head: nat, scan: D.Scan)
    requires Shaped(s) && t in s.calls && s.calls[t].pc == Advance(head, scan) && !scan.Final? && s' == Turn(s, t)
    ensures Keeps(s, t, s')
    ensures var side := s.calls[t].request.side;
            && s'.Own(side) == s.Own(side) && s'.Opposite(side) == D.Moved(s.Opposite(side), scan)
            && s'.calls[t].pc == Advance(head, D.Step(s.Opposite(side), s.n, scan))
  {
    hide Available, D.Step;
  }

  lemma Admitted<T>(s: State<T>, t: nat, s': State<T>, head: nat)
    requires Shaped(s) && t in s.calls && s.calls[t].pc.Advance? && s.calls[t].pc.scan.Final? && s' == Turn(s, t)
    requires Transfer(s, s.calls[t].request) && head == s.calls[t].pc.head < D.U64
    requires s.Opposite(s.calls[t].request.side).frontier < D.U64
    requires 0 < RoomAt(s, s.calls[t].request.side, head) <= s.n
    ensures Keeps(s, t, s') && SameLanes(s, s')
    ensures var r := s.calls[t].request;
            var room := RoomAt(s, r.side, head);
            if r.fixed && room < r.count then s'.calls[t].pc == Return(head, 0) && s'.calls[t].left == room
            else s'.calls[t].pc == Reserve(head, room)
  {
    hide Available, D.Sub64;
    AdmitsExactly(s.calls[t].request.side, s.n, head, s.Opposite(s.calls[t].request.side).frontier);
  }

  /** A request that does not take whatever there is finds room for one, and moves nothing. */
  lemma Reported<T>(s: State<T>, t: nat, s': State<T>, head: nat)
    requires Shaped(s) && t in s.calls && s.calls[t].pc.Advance? && s.calls[t].pc.scan.Final? && s' == Turn(s, t)
    requires Legal(s.n, s.calls[t].request) && !TakesAny(s.calls[t].request) && head == s.calls[t].pc.head < D.U64
    requires s.Opposite(s.calls[t].request.side).frontier < D.U64
    requires RoomAt(s, s.calls[t].request.side, head) == 1
    ensures Keeps(s, t, s') && SameLanes(s, s')
    ensures s'.calls[t].pc == Return(head, 0) && s'.calls[t].left == 1
  {
    hide Available;
    AdmitsExactly(s.calls[t].request.side, s.n, head, s.Opposite(s.calls[t].request.side).frontier);
  }

  lemma Reserved<T>(s: State<T>, t: nat, s': State<T>, count: nat)
    requires Shaped(s) && t in s.calls && s.calls[t].pc.Reserve? && s' == Turn(s, t)
    requires s.Own(s.calls[t].request.side).head == s.calls[t].pc.head
    requires count == D.Min(s.calls[t].request.count, s.calls[t].pc.available)
    ensures Keeps(s, t, s')
    ensures var c := s.calls[t];
            && s'.Own(c.request.side) == s.Own(c.request.side).Reserve(count)
            && s'.Opposite(c.request.side) == s.Opposite(c.request.side)
            && s'.calls[t].pc == Copy(c.pc.head, count, 0)
  {
    ReservedShape(s, t, s.calls[t], s', count);
    ReserveSteady(s, t, s.calls[t].pc.head, s.calls[t].pc.available);
  }

  lemma Copied<T>(s: State<T>, t: nat, s': State<T>)
    requires Shaped(s) && !s.clearing && t in s.calls && s.calls[t].pc.Copy? && s' == Turn(s, t)
    requires s.calls[t].request.side.Producer? ==> s.calls[t].pc.count <= |s.calls[t].values|
    ensures Keeps(s, t, s') && SameLanes(s, s')
    ensures var pc := s.calls[t].pc;
            s'.calls[t].pc == if pc.done < pc.count then Copy(pc.start, pc.count, pc.done + 1) else Publish(pc.start, pc.count)
  {
    hide Slot;
    CopySteady(s, t, s.calls[t].pc.start, s.calls[t].pc.count, s.calls[t].pc.done);
  }

  lemma Published<T>(s: State<T>, t: nat, s': State<T>)
    requires Shaped(s) && t in s.calls && s.calls[t].pc.Publish? && s' == Turn(s, t)
    ensures Keeps(s, t, s')
    ensures var side, pc := s.calls[t].request.side, s.calls[t].pc;
            && s'.Own(side) == s.Own(side).Finish(pc.start, pc.start + pc.count)
            && s'.Opposite(side) == s.Opposite(side)
            && s'.calls[t].pc == Return(pc.start, pc.count)
  {
    hide Slot;
  }

  lemma KeepsOn<T>(a: State<T>, b: State<T>, c: State<T>, t: nat)
    requires Keeps(a, t, b) && Keeps(b, t, c)
    ensures Keeps(a, t, c)
  {
  }

  // ---------------------------------------------------------------------------------------
  // Stretches of a call

  /** Copies the rest of an interval. */
  lemma {:induction false} Copies<T(!new)>(run: seq<State<T>>, t: nat) returns (run': seq<State<T>>)
    requires Run(run) && Shaped(Last(run)) && !Last(run).clearing && t in Last(run).calls && Last(run).calls[t].pc.Copy?
    requires Last(run).calls[t].pc.done <= Last(run).calls[t].pc.count
    requires Last(run).calls[t].request.side.Producer? ==> Last(run).calls[t].pc.count <= |Last(run).calls[t].values|
    ensures Run(run') && run < run' && Keeps(Last(run), t, Last(run')) && SameLanes(Last(run), Last(run'))
    ensures Last(run').calls[t].pc == Publish(Last(run).calls[t].pc.start, Last(run).calls[t].pc.count)
    decreases Last(run).calls[t].pc.count - Last(run).calls[t].pc.done
  {
    hide Next, Init, Turn, SameCalls;
    var s := Last(run);
    run' := Goes(run, t);
    Copied(s, t, Last(run'));
    if s.calls[t].pc.done < s.calls[t].pc.count {
      var s' := Last(run');
      run' := Copies(run', t);
      KeepsOn(s, s', Last(run'), t);
    }
  }

  /** The lane after an interval of `count` is reserved and finished. */
  function Taken(l: Lane, count: nat): Lane
    requires |l.records| > 0
  {
    l.Reserve(count).Finish(l.head, l.head + count)
  }

  /** Reserves, copies and finishes an interval. */
  lemma Completes<T(!new)>(run: seq<State<T>>, t: nat, count: nat) returns (run': seq<State<T>>)
    requires Run(run) && Shaped(Last(run)) && !Last(run).clearing && t in Last(run).calls && Last(run).calls[t].pc.Reserve?
    requires Last(run).Own(Last(run).calls[t].request.side).head == Last(run).calls[t].pc.head
    requires Last(run).Own(Last(run).calls[t].request.side).head + Last(run).n < D.U64
    requires count == D.Min(Last(run).calls[t].request.count, Last(run).calls[t].pc.available)
    requires Last(run).calls[t].request.side.Producer? ==> Last(run).calls[t].request.count <= |Last(run).calls[t].values|
    ensures Run(run') && run < run' && Keeps(Last(run), t, Last(run'))
    ensures var s, s', side := Last(run), Last(run'), Last(run).calls[t].request.side;
            && s'.Own(side) == Taken(s.Own(side), count) && s'.Opposite(side) == s.Opposite(side)
            && s'.calls[t].pc == Return(s.Own(side).head, count)
  {
    hide Next, Init, Turn, SameCalls, Slot;
    var s := Last(run);
    run' := Goes(run, t);
    var s1 := Last(run');
    Reserved(s, t, s1, count);
    run' := Copies(run', t);
    var s2 := Last(run');
    KeepsOn(s, s1, s2, t);
    run' := Goes(run', t);
    Published(s2, t, Last(run'));
    KeepsOn(s, s2, Last(run'), t);
  }

  /** A new transfer that the opposite frontier admits at once. */
  lemma Transfers<T(!new)>(run: seq<State<T>>, t: nat, side: Side, count: nat) returns (run': seq<State<T>>)
    requires Run(run) && Shaped(Last(run)) && !Last(run).clearing && t !in Last(run).calls && 0 < count
    requires count <= RoomAt(Last(run), side, Last(run).Own(side).head) <= Last(run).n
    requires Last(run).Own(side).head + Last(run).n < D.U64 && Last(run).Opposite(side).frontier < D.U64
    ensures Run(run') && run < run' && SameCalls(Last(run), Last(run'), t) && Shaped(Last(run'))
    ensures Last(run').n == Last(run).n && !Last(run').clearing
    ensures Last(run').Own(side) == Taken(Last(run).Own(side), count)
    ensures Last(run').Opposite(side) == Last(run).Opposite(side)
  {
    hide Next, Init, Turn, Slot;
    run' := Begins(run, t, Request(side, count, true, false, false));
    var s := Last(run');
    run' := Goes(run', t);
    var s1 := Last(run');
    HeadLoaded(s, t, s1);
    run' := Goes(run', t);
    var s2 := Last(run');
    OppositeLoaded(s1, t, s2);
    run' := Completes(run', t, count);
  }

  /** A new call for which the opposite frontier shows nothing, up to its first record load. */
  lemma Approaches<T(!new)>(run: seq<State<T>>, t: nat, r: Request) returns (run': seq<State<T>>)
    requires Run(run) && Shaped(Last(run)) && !Last(run).clearing && Legal(Last(run).n, r) && t !in Last(run).calls
    requires RoomAt(Last(run), r.side, Last(run).Own(r.side).head) == 0 && Last(run).Own(r.side).head < D.U64
    requires Last(run).Opposite(r.side).frontier < Last(run).Opposite(r.side).head < D.U64
    ensures Run(run') && run < run' && SameLanes(Last(run), Last(run')) && SameCalls(Last(run), Last(run'), t)
    ensures Shaped(Last(run')) && Last(run').n == Last(run).n && !Last(run').clearing
    ensures t in Last(run').calls && Last(run').calls[t].request == r
    ensures r.side.Producer? ==> r.count <= |Last(run').calls[t].values|
    ensures var s, opp := Last(run), Last(run).Opposite(r.side);
            Last(run').calls[t].pc ==
              Advance(s.Own(r.side).head, D.Chained(opp.frontier, D.Min(opp.head - opp.frontier, s.n), opp.frontier, 0))
  {
    hide Next, Init, Turn, SameCalls;
    run' := Begins(run, t, r);
    var s := Last(run');
    run' := Goes(run', t);
    var s1 := Last(run');
    HeadLoaded(s, t, s1);
    if !r.observe {
      run' := Goes(run', t);
      OppositeLoaded(s1, t, Last(run'));
      KeepsOn(s, s1, Last(run'), t);
    }
    var s2 := Last(run');
    run' := Searches(run', t);
    KeepsOn(s, s2, Last(run'), t);
    SameOn(Last(run), s, Last(run'), t);
  }

  lemma SameOn<T>(a: State<T>, b: State<T>, c: State<T>, t: nat)
    requires SameCalls(a, b, t) && SameCalls(b, c, t)
    ensures SameCalls(a, c, t)
  {
  }

  /** The two loads that bound a discovery. */
  lemma Searches<T(!new)>(run: seq<State<T>>, t: nat) returns (run': seq<State<T>>)
    requires Run(run) && Shaped(Last(run)) && t in Last(run).calls
    requires Last(run).calls[t].pc.Advance? && Last(run).calls[t].pc.scan == D.LoadFrontier
    requires var opp := Last(run).Opposite(Last(run).calls[t].request.side); opp.frontier < opp.head < D.U64
    ensures Run(run') && run < run' && SameLanes(Last(run), Last(run')) && Keeps(Last(run), t, Last(run'))
    ensures var s, c := Last(run), Last(run).calls[t];
            var opp := s.Opposite(c.request.side);
            Last(run').calls[t].pc ==
              Advance(c.pc.head, D.Chained(opp.frontier, D.Min(opp.head - opp.frontier, s.n), opp.frontier, 0))
  {
    hide Next, Init, Turn, SameCalls;
    var s := Last(run);
    var head := s.calls[t].pc.head;
    run' := Goes(run, t);
    var s1 := Last(run');
    Scanned(s, t, s1, head, D.LoadFrontier);
    run' := Goes(run', t);
    Scanned(s1, t, Last(run'), head, D.LoadBound(s.Opposite(s.calls[t].request.side).frontier));
    KeepsOn(s, s1, Last(run'), t);
  }

  /** Discovery accepts one record that fills its window. */
  lemma Accepted<T(!new)>(run: seq<State<T>>, t: nat, head: nat, base: nat, end: nat) returns (run': seq<State<T>>)
    requires Run(run) && Shaped(Last(run)) && t in Last(run).calls && base < end
    requires Last(run).calls[t].pc == Advance(head, D.Chained(base, end - base, base, 0))
    requires Last(run).Opposite(Last(run).calls[t].request.side).records[Slot(base, Last(run).n)] == end
    ensures Run(run') && run < run' && SameLanes(Last(run), Last(run')) && Keeps(Last(run), t, Last(run'))
    ensures Last(run').calls[t].pc == Advance(head, D.Swap(base, end))
  {
    hide Next, Init, Turn, SameCalls, Slot;
    run' := Goes(run, t);
    Scanned(Last(run), t, Last(run'), head, D.Chained(base, end - base, base, 0));
  }

  /** Raises the opposite frontier and completes a transfer of `count`. */
  lemma Claims<T(!new)>(run: seq<State<T>>, t: nat, end: nat, count: nat) returns (run': seq<State<T>>)
    requires Run(run) && Shaped(Last(run)) && t in Last(run).calls && Transfer(Last(run), Last(run).calls[t].request)
    requires var s, c := Last(run), Last(run).calls[t];
             var own, opp := s.Own(c.request.side), s.Opposite(c.request.side);
             && c.pc == Advance(own.head, D.Swap(opp.frontier, end)) && end < D.U64 && own.head + s.n < D.U64
             && 0 < count == c.request.count <= end + Lead(c.request.side, s.n) - own.head <= s.n
             && (c.request.side.Producer? ==> count <= |c.values|)
    ensures Run(run') && run < run' && Keeps(Last(run), t, Last(run'))
    ensures var s, s', side := Last(run), Last(run'), Last(run).calls[t].request.side;
            && s'.Own(side) == Taken(s.Own(side), count)
            && s'.Opposite(side) == s.Opposite(side).Raise(end)
  {
    hide Next, Init, Turn, SameCalls, Slot;
    var s := Last(run);
    var head, side := s.calls[t].pc.head, s.calls[t].request.side;
    run' := Goes(run, t);
    var s1 := Last(run');
    Scanned(s, t, s1, head, D.Swap(s.Opposite(side).frontier, end));
    run' := Goes(run', t);
    var s2 := Last(run');
    Admitted(s1, t, s2, head);
    KeepsOn(s, s1, s2, t);
    run' := Completes(run', t, count);
    KeepsOn(s, s2, Last(run'), t);
  }

  // ---------------------------------------------------------------------------------------
  // The stale report

  function Other(side: Side): Side {
    if side.Producer? then Consumer else Producer
  }

  function Bulk(side: Side, count: nat): Request {
    Request(side, count, true, false, false)
  }

  /** A lap taken as one position and the rest of the lap, of which the frontier shows nothing. */
  function LapTaken(n: nat): Lane
    requires n > 1
  {
    Taken(Taken(InitLane(n), 1), n - 1)
  }

  /** The opposite lane is a lap ahead, its frontier shows nothing of it, and call `b` is about to raise
      that frontier by one. */
  ghost predicate Opening<T>(s: State<T>, side: Side, b: nat) {
    && Shaped(s) && s.n > 1 && !s.clearing && b in s.calls
    && s.Own(side).head == s.Own(side).frontier == Lead(side, s.n)
    && s.Opposite(side) == LapTaken(s.n)
    && s.calls[b].request == Bulk(side, 1) && s.calls[b].pc == Advance(Lead(side, s.n), D.Swap(0, 1))
    && (side.Producer? ==> 1 <= |s.calls[b].values|)
  }

  lemma SlotZero(n: nat)
    requires n > 1
    ensures Slot(0, n) == 0 && Slot(n, n) == 0 && Slot(1, n) == 1
  {
  }

  lemma OpensConsumer<T(!new)>(run: seq<State<T>>) returns (run': seq<State<T>>)
    requires Run(run) && Init(Last(run)) && Last(run).n > 1 && !Last(run).clearing
    ensures Run(run') && run < run' && Opening(Last(run'), Consumer, 1)
    ensures forall t | t in Last(run').calls :: t < 3
  {
    hide Next, Turn, Slot;
    var n := Last(run).n;
    SlotZero(n);
    run' := Transfers(run, 0, Producer, 1);
    run' := Approaches(run', 1, Bulk(Consumer, 1));
    run' := Accepted(run', 1, 0, 0, 1);
    run' := Transfers(run', 2, Producer, n - 1);
  }

  lemma OpensProducer<T(!new)>(run: seq<State<T>>) returns (run': seq<State<T>>)
    requires Run(run) && Init(Last(run)) && Last(run).n > 1 && !Last(run).clearing
    ensures Run(run') && run < run' && Opening(Last(run'), Producer, 2)
    ensures forall t | t in Last(run').calls :: t < 4
  {
    hide Next, Turn, Slot;
    var n := Last(run).n;
    SlotZero(n);
    run' := Transfers(run, 0, Producer, n);
    run' := Approaches(run', 1, Bulk(Consumer, 1));
    run' := Accepted(run', 1, 0, 0, n);
    run' := Claims(run', 1, n, 1);
    run' := Approaches(run', 2, Bulk(Producer, 1));
    run' := Accepted(run', 2, n, 0, 1);
    run' := Transfers(run', 3, Consumer, n - 1);
  }

  /** Call `a` has loaded the frontier and the bound of its discovery, and its first record is next. */
  ghost predicate Waits<T>(s: State<T>, a: nat, r: Request) {
    && Shaped(s) && s.n > 1 && !s.clearing && a in s.calls && s.calls[a].request == r
    && s.calls[a].pc == Advance(Lead(r.side, s.n), D.Chained(0, s.n, 0, 0))
    && s.Own(r.side).head == Lead(r.side, s.n) + 1 && s.Opposite(r.side).frontier == 1
  }

  /** Call `b` raises the frontier by one and takes that position. */
  lemma Overtakes<T(!new)>(run: seq<State<T>>, a: nat, b: nat, r: Request) returns (run': seq<State<T>>)
    requires Run(run) && Opening(Last(run), r.side, b) && a != b && a !in Last(run).calls
    requires Legal(Last(run).n, r)
    ensures Run(run') && run < run' && Last(run').n == Last(run).n && Waits(Last(run'), a, r)
    ensures Last(run').Own(r.side).frontier == Lead(r.side, Last(run).n) && Last(run').Opposite(r.side).head == Last(run).n
    ensures Last(run').Own(r.side).records[0] == Lead(r.side, Last(run).n) + 1
    ensures forall u | u in Last(run').calls :: u == a || u in Last(run).calls
  {
    hide Next, Init, Turn, Slot;
    SlotZero(Last(run).n);
    run' := Approaches(run, a, r);
    run' := Claims(run', b, 1, 1);
  }

  /** Call `p` of the other side uses that position for the next lap. */
  lemma Reuses<T(!new)>(run: seq<State<T>>, a: nat, p: nat, r: Request) returns (run': seq<State<T>>)
    requires Run(run) && Waits(Last(run), a, r) && a != p && p !in Last(run).calls
    requires Last(run).Own(r.side).frontier == Lead(r.side, Last(run).n) && Last(run).Opposite(r.side).head == Last(run).n
    requires Last(run).Own(r.side).records[0] == Lead(r.side, Last(run).n) + 1
    ensures Run(run') && run < run' && Last(run').n == Last(run).n && Waits(Last(run'), a, r)
    ensures Last(run').Opposite(r.side).records[0] == Last(run).n + 1
  {
    hide Next, Init, Turn, Slot;
    var s, lead := Last(run), Lead(r.side, Last(run).n);
    SlotZero(s.n);
    run' := Approaches(run, p, Bulk(Other(r.side), 1));
    run' := Accepted(run', p, s.n, lead, lead + 1);
    run' := Claims(run', p, lead + 1, 1);
  }

  /** The record that call `a` loads next belongs to the next lap, so it stops there, and finds room for
      one only. */
  lemma Stops<T(!new)>(run: seq<State<T>>, a: nat, r: Request) returns (run': seq<State<T>>)
    requires Run(run) && Waits(Last(run), a, r) && Legal(Last(run).n, r) && !TakesAny(r)
    requires Last(run).Opposite(r.side).records[0] == Last(run).n + 1
    ensures Run(run') && run < run' && Empty(run', |run'| - 1, a, r) && Last(run').calls[a].left == 1
    ensures Last(run').Own(r.side).head == Last(run).Own(r.side).head
  {
    hide Next, Init, Turn, Slot;
    var s, n := Last(run), Last(run).n;
    SlotZero(n);
    run' := Goes(run, a);
    var s1 := Last(run');
    Scanned(s, a, s1, Lead(r.side, n), D.Chained(0, n, 0, 0));
    run' := Goes(run', a);
    Reported(s1, a, Last(run'), Lead(r.side, n));
  }

  lemma UsableGrows(l: Lane, l': Lane)
    requires Grows(l, l')
    ensures D.Usable(l) <= D.Usable(l')
  {
    assert forall p: nat | !D.Blocked(l, p) :: !D.Blocked(l', p);
  }

  lemma LapUsable(n: nat)
    requires n > 1
    ensures D.Usable(LapTaken(n)) == n
  {
    var l := LapTaken(n);
    assert l.reserved.Keys == {0, 1} && l.finished == {0, 1} && l.head == n;
    assert forall p: nat | p < n :: !D.Blocked(l, p);
  }

  /** From the opening on there is always all but one position of a lap to take. */
  lemma EnoughThroughout<T(!new)>(run: seq<State<T>>, side: Side, from: nat, j: nat)
    requires Run(run) && from <= j < |run| && run[from].n > 1 && run[from].Opposite(side) == LapTaken(run[from].n)
    requires Last(run).Own(side).head == Lead(side, run[from].n) + 1
    ensures Available(run[j], side) >= run[from].n - 1
  {
    hide D.Usable, Next;
    RunLater(run, from, j);
    RunLater(run, j, |run| - 1);
    LapUsable(run[from].n);
    UsableGrows(run[from].Opposite(side), run[j].Opposite(side));
  }

  /** While call `t` of the last state was under way, there was always at least `count` to take. */
  ghost predicate Throughout<T>(run: seq<State<T>>, t: nat, side: Side, count: nat) {
    forall j | 0 <= j < |run| && (forall k | j <= k < |run| :: t in run[k].calls) :: Available(run[j], side) >= count
  }

  /** A call that does not take whatever there is (a peek, a Count, a bulk transfer of more than one) moves
      nothing and reports one, although there is all but one of a lap from its first step to its last. */
  lemma StaleReport<T(!new)>(n: nat, zero: T, r: Request) returns (run: seq<State<T>>, t: nat)
    requires 2 < n <= 0x4000_0000 && Legal(n, r) && !TakesAny(r)
    ensures Run(run) && run[0].n == n && run[0].zero == zero && Empty(run, |run| - 1, t, r)
    ensures Last(run).calls[t].left == 1 && Throughout(run, t, r.side, n - 1)
  {
    hide Next, Opening, Empty, Available, TakesAny, Throughout;
    var s: State<T> := State(n, false, zero, InitLane(n), InitLane(n), seq(n, _ => zero), map[], [], map[]);
    run := [s];
    var b;
    if r.side.Producer? {
      b := 2;
      run := OpensProducer(run);
    } else {
      b := 1;
      run := OpensConsumer(run);
    }
    t := 4;
    var from := |run| - 1;
    var before := run;
    RunSame(run, from);
    OpeningFacts(run[from], r.side, b);
    run := Overtakes(run, t, b, r);
    run := Reuses(run, t, 5, r);
    run := Stops(run, t, r);
    assert run[from] == before[from] && run[0] == s;
    EnoughSince(run, t, r.side, from);
  }

  /** A call that begins after `from` finds all but one of a lap throughout. */
  lemma EnoughSince<T(!new)>(run: seq<State<T>>, t: nat, side: Side, from: nat)
    requires Run(run) && from < |run| && run[from].n > 1 && run[from].Opposite(side) == LapTaken(run[from].n)
    requires Last(run).Own(side).head == Lead(side, run[from].n) + 1 && t !in run[from].calls
    ensures Throughout(run, t, side, run[from].n - 1)
  {
    hide Available, Next, Init;
    forall j | 0 <= j < |run| && (forall k | j <= k < |run| :: t in run[k].calls)
      ensures Available(run[j], side) >= run[from].n - 1
    {
      assert from < j;
      EnoughThroughout(run, side, from, j);
    }
  }

  /** A bulk transfer of at least two and less than a lap that is refused, reporting one, although there is
      enough for it from its first step to its last. */
  lemma StaleRefusal<T(!new)>(n: nat, zero: T, side: Side, count: nat) returns (run: seq<State<T>>, t: nat)
    requires 1 < count < n <= 0x4000_0000
    ensures Run(run) && run[0].n == n && run[0].zero == zero && Refused(run, |run| - 1, t, side, count)
    ensures Last(run).calls[t].left == 1 && Throughout(run, t, side, count)
  {
    run, t := StaleReport(n, zero, Bulk(side, count));
    hide Available, Next;
  }

  lemma OpeningFacts<T>(s: State<T>, side: Side, b: nat)
    requires Opening(s, side, b)
    ensures Shaped(s) && s.n > 1 && !s.clearing && s.Opposite(side) == LapTaken(s.n)
  {
  }

  lemma RunSame<T(!new)>(run: seq<State<T>>, i: nat)
    requires Run(run) && i < |run|
    ensures run[i].n == run[0].n && run[i].zero == run[0].zero
  {
    RunLater(run, 0, i);
  }

  /** Exactly when a refused bulk transfer can be trusted whatever the other calls do: when it asked for a
      single element or for a whole lap. */
  lemma RefusalsHonestIff<T(!new)>(n: nat, zero: T, side: Side, count: nat)
    requires 0 < count <= n <= 0x4000_0000
    ensures RefusalsHonest(n, zero, side, count) <==> count == 1 || count == n
  {
    hide Available, Next, Init, Met, MetOnce;
    if count == 1 || count == n {
      forall run: seq<State<T>>, i, t
        | Run(run) && run[0].n == n && run[0].zero == zero && Refused(run, i, t, side, count)
        ensures MetOnce(run, i, t, count - 1)
      {
        HonestRefusal(run, i, t, side, count);
      }
    } else {
      var run, t := StaleRefusal(n, zero, side, count);
      hide Throughout;
      NeverMet(run, t, side, count, count - 1);
    }
  }

  lemma HonestRefusal<T(!new)>(run: seq<State<T>>, i: nat, t: nat, side: Side, count: nat)
    requires Run(run) && Refused(run, i, t, side, count) && (count == 1 || count == run[0].n)
    ensures MetOnce(run, i, t, count - 1)
  {
    hide Available, Next, Met;
    RunSame(run, i);
    var j;
    if count == run[0].n {
      j := WholeLapHonest(run, i, t, side);
    } else {
      j := HonestZero(run, i, t);
    }
    assert Met(run, i, t, j, count - 1);
  }

  lemma NeverMet<T>(run: seq<State<T>>, t: nat, side: Side, count: nat, left: nat)
    requires |run| > 0 && t in Last(run).calls && Last(run).calls[t].request.side == side
    requires Throughout(run, t, side, count) && left < count
    ensures !MetOnce(run, |run| - 1, t, left)
  {
    hide Available;
  }

  // ---------------------------------------------------------------------------------------
  // Reported counts

  lemma FreshReport<T(!new)>(run: seq<State<T>>, i: nat, t: nat, r: Request)
    requires Run(run) && Empty(run, i, t, r) && (TakesAny(r) || run[0].n <= 2)
    ensures MetOnce(run, i, t, run[i].calls[t].left)
  {
    hide Available, Next, Inv, Later;
    RunSame(run, i);
    var c := run[i].calls[t];
    var j;
    if c.left == 0 || TakesAny(r) {
      j := HonestZero(run, i, t);
    } else if run[i].Own(r.side).head == c.pc.start {
      j := ReportIsFresh(run, i, t);
    } else {
      j := MovedInstant(run, i, t);
    }
    assert Met(run, i, t, j, c.left);
  }

  /** Exactly when the count that a call reports after moving nothing can be trusted whatever the other calls
      do: for a single transfer and a burst, and with one or two slots for every request. */
  lemma ReportsFreshIff<T(!new)>(n: nat, zero: T, r: Request)
    requires 0 < n <= 0x4000_0000 && Legal(n, r)
    ensures ReportsFresh(n, zero, r) <==> TakesAny(r) || n <= 2
  {
    hide Available, Next, Init, Met, MetOnce, TakesAny;
    if TakesAny(r) || n <= 2 {
      forall run: seq<State<T>>, i: nat, t: nat
        | Run(run) && run[0].n == n && run[0].zero == zero && Empty(run, i, t, r)
        ensures MetOnce(run, i, t, run[i].calls[t].left)
      {
        FreshReport(run, i, t, r);
      }
    } else {
      var run, t := StaleReport(n, zero, r);
      hide Throughout;
      NeverMet(run, t, r.side, n - 1, 1);
    }
  }
}
