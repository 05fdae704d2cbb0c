/** Discovery as a concurrent caller runs it: one shared load, or one compare-and-swap, a step,
    with other callers moving the lane between any two steps. */
module Discovery {
  import opened Lanes
  import opened Records

  const U64: nat := 0x1_0000_0000_0000_0000

  /** Subtraction of uint64 values. */
  function Sub64(a: nat, b: nat): nat {
    (a - b) % U64
  }

  function Min(a: nat, b: nat): nat {
    if a <= b then a else b
  }

  /** Where a caller stands in an advance of the opposite frontier, between two shared accesses. */
  datatype RawScan =
    | LoadFrontier
    | LoadBound(base: nat)
    | Chained(base: nat, window: nat, end: nat, stride: nat)
    | Ahead(base: nat, window: nat, end: nat, stride: nat, loaded: seq<nat>)
    | Swap(current: nat, end: nat)
    | Reload(end: nat)
    | Final(end: nat)

  predicate Shaped(scan: RawScan) {
    match scan
    case Chained(base, window, end, _) => base <= end < base + window
    case Ahead(base, window, end, stride, _) => base <= end < base + window && stride >= LOOKAHEAD_MIN_STRIDE
    case _ => true
  }

  type Scan = s: RawScan | Shaped(s) witness LoadFrontier

  /** The head of the discovery loop. */
  function Continue(base: nat, window: nat, end: nat, stride: nat): Scan
    requires base <= end <= base + window
  {
    if end - base >= window then Settle(base, end)
    else if stride >= LOOKAHEAD_MIN_STRIDE then Ahead(base, window, end, stride, [])
    else Chained(base, window, end, stride)
  }

  /** The head of the loop that raises the frontier. */
  function Settle(current: nat, end: nat): Scan {
    if current < end then Swap(current, end) else Final(end)
  }

  /** The loaded record `v` decides how a chained load goes on. */
  function AfterRecord(base: nat, window: nat, end: nat, v: nat): Scan
    requires base <= end <= base + window
  {
    if Accepts(base, window, end, v) then Continue(base, window, v, v - end) else Settle(base, end)
  }

  /** All predicted records are loaded: accept what they prove and chain on from there. */
  function AfterAhead(base: nat, window: nat, end: nat, stride: nat): Scan
    requires base <= end <= base + window
  {
    if end - base >= window then Settle(base, end) else Chained(base, window, end, stride)
  }

  /** More predicted records remain to be loaded, the next one at `Predicted(scan)`. */
  predicate Predicting(scan: Scan)
    requires scan.Ahead?
  {
    |scan.loaded| < LOOKAHEAD && Predicted(scan) - scan.base < scan.window
  }

  function Predicted(scan: Scan): nat
    requires scan.Ahead?
  {
    scan.end + |scan.loaded| * scan.stride
  }

  /** One step of an advance over a lane with `n` slots. `Final` is left to the caller, which
      loads the frontier once more and returns it. */
  function Step(l: Lane, n: nat, scan: Scan): Scan
    requires 0 < n == |l.records|
  {
    match scan
    case LoadFrontier => LoadBound(l.frontier)
    case LoadBound(base) => Continue(base, Min(Sub64(l.head, base), n), base, 0)
    case Chained(base, window, end, _) => AfterRecord(base, window, end, l.records[Slot(end, n)])
    case Ahead(base, window, end, stride, loaded) =>
      if Predicting(scan) then scan.(loaded := loaded + [l.records[Slot(Predicted(scan), n)]])
      else AfterAhead(base, window, AcceptAhead(base, window, end, stride, window, loaded), stride)
    case Swap(current, end) => if l.frontier == current then Final(end) else Reload(end)
    case Reload(end) => Settle(l.frontier, end)
    case Final(end) => scan
  }

  /** Only the compare-and-swap changes the lane. */
  function Moved(l: Lane, scan: Scan): Lane {
    if scan.Swap? && l.frontier == scan.current then l.Raise(scan.end) else l
  }

  /** The window starts at a frontier, is at most a lap long and ends at a boundary or after a lap. */
  ghost predicate WindowInv(l: Lane, n: nat, base: nat, window: nat) {
    && base <= l.frontier
    && window <= n
    && base + window <= l.head
    && (window == n || Boundary(l.reserved, l.head, base + window))
  }

  /** The values loaded ahead come from the slots of `end`, `end + stride`, and so on. */
  ghost predicate LoadedInv(l: Lane, n: nat, end: nat, stride: nat, loaded: seq<nat>)
    requires n > 0
    decreases |loaded|
  {
    loaded != [] ==>
      Recorded(l, n, Slot(end, n), loaded[0]) && LoadedInv(l, n, end + stride, stride, loaded[1..])
  }

  ghost predicate ScanInv(l: Lane, n: nat, scan: Scan)
    requires n > 0
  {
    match scan
    case LoadFrontier => true
    case LoadBound(base) => base <= l.frontier && Proven(l, base)
    case Chained(base, window, end, _) => WindowInv(l, n, base, window) && Proven(l, end)
    case Ahead(base, window, end, stride, loaded) =>
      && WindowInv(l, n, base, window)
      && Proven(l, end)
      && LoadedInv(l, n, end, stride, loaded)
    case Swap(current, end) => current < end && Proven(l, end)
    case Reload(end) => Proven(l, end)
    case Final(end) => end <= l.frontier
  }

  lemma {:induction false} LoadedStable(l: Lane, l': Lane, n: nat, end: nat, stride: nat, loaded: seq<nat>)
    requires n > 0 && LoadedInv(l, n, end, stride, loaded) && Grows(l, l')
    ensures LoadedInv(l', n, end, stride, loaded)
    decreases |loaded|
  {
    if loaded != [] {
      RecordedStable(l, l', n, Slot(end, n), loaded[0]);
      LoadedStable(l, l', n, end + stride, stride, loaded[1..]);
    }
  }

  lemma {:induction false} LoadedMore(l: Lane, n: nat, end: nat, stride: nat, loaded: seq<nat>, v: nat)
    requires n > 0 && LoadedInv(l, n, end, stride, loaded)
    requires Recorded(l, n, Slot(end + |loaded| * stride, n), v)
    ensures LoadedInv(l, n, end, stride, loaded + [v])
    decreases |loaded|
  {
    if loaded == [] {
      assert LoadedInv(l, n, end + stride, stride, []);
    } else {
      assert end + |loaded| * stride == (end + stride) + |loaded[1..]| * stride;
      LoadedMore(l, n, end + stride, stride, loaded[1..], v);
      assert (loaded + [v])[1..] == loaded[1..] + [v];
    }
  }

  lemma ScanStable(l: Lane, l': Lane, n: nat, scan: Scan)
    requires n > 0 && ScanInv(l, n, scan) && Grows(l, l')
    ensures ScanInv(l', n, scan)
  {
    if scan.Ahead? {
      LoadedStable(l, l', n, scan.end, scan.stride, scan.loaded);
    }
  }

  lemma {:induction false} AheadProven(
      l: Lane, n: nat, low: nat, base: nat, window: nat, end: nat, stride: nat, loaded: seq<nat>)
    requires LaneInv(l, n, low) && Proven(l, end) && base <= end <= base + window && window <= n
    requires LoadedInv(l, n, end, stride, loaded)
    ensures Proven(l, AcceptAhead(base, window, end, stride, window, loaded))
    decreases |loaded|
  {
    hide LaneInv, Proven, Recorded, Slot;
    if loaded != [] && end - base < window && end < loaded[0] && loaded[0] - end == stride <= window - (end - base) {
      AcceptedEnd(l, n, low, end, loaded[0]);
      AheadProven(l, n, low, base, window, loaded[0], stride, loaded[1..]);
    }
  }

  lemma ContinueInv(l: Lane, n: nat, base: nat, window: nat, end: nat, stride: nat)
    requires n > 0 && WindowInv(l, n, base, window) && base <= end <= base + window && Proven(l, end)
    requires base < end || base == l.frontier || Proven(l, base)
    ensures ScanInv(l, n, Continue(base, window, end, stride))
  {
  }

  lemma ChainedKeeps(l: Lane, n: nat, low: nat, base: nat, window: nat, end: nat)
    requires LaneInv(l, n, low) && WindowInv(l, n, base, window) && Proven(l, end) && base <= end < base + window
    ensures ScanInv(l, n, AfterRecord(base, window, end, l.records[Slot(end, n)]))
  {
    var v := l.records[Slot(end, n)];
    if Accepts(base, window, end, v) {
      assert Recorded(l, n, Slot(end, n), v);
      AcceptedEnd(l, n, low, end, v);
      ContinueInv(l, n, base, window, v, v - end);
    }
  }

  lemma LoadedKeeps(l: Lane, n: nat, scan: Scan)
    requires RecordsInv(l, n) && ScanInv(l, n, scan) && scan.Ahead? && Predicting(scan)
    ensures ScanInv(l, n, Step(l, n, scan))
  {
    var v := l.records[Slot(Predicted(scan), n)];
    assert Recorded(l, n, Slot(Predicted(scan), n), v);
    LoadedMore(l, n, scan.end, scan.stride, scan.loaded, v);
  }

  lemma AheadKeeps(l: Lane, n: nat, low: nat, scan: Scan)
    requires LaneInv(l, n, low) && ScanInv(l, n, scan) && scan.Ahead?
    ensures ScanInv(l, n, Step(l, n, scan))
  {
    if Predicting(scan) {
      LoadedKeeps(l, n, scan);
    } else {
      AheadProven(l, n, low, scan.base, scan.window, scan.end, scan.stride, scan.loaded);
    }
  }

  lemma MovedKeeps(l: Lane, n: nat, low: nat, scan: Scan)
    requires LaneInv(l, n, low) && ScanInv(l, n, scan)
    ensures LaneInv(Moved(l, scan), n, low)
    ensures Grows(l, Moved(l, scan)) && Moved(l, scan).head == l.head
  {
    if scan.Swap? && l.frontier == scan.current {
      RaiseKeeps(l, n, low, scan.end);
    }
  }

  lemma PositionKeeps(l: Lane, n: nat, scan: Scan)
    requires 0 < n == |l.records| && ScanInv(l, n, scan) && l.head < U64 && Proven(l, l.frontier)
    requires !scan.Chained? && !scan.Ahead?
    ensures ScanInv(Moved(l, scan), n, Step(l, n, scan))
  {
    if scan.LoadBound? {
      ContinueInv(l, n, scan.base, Min(Sub64(l.head, scan.base), n), scan.base, 0);
    }
  }

  /** Every step of an advance proves what it claims. */
  lemma StepKeeps(l: Lane, n: nat, low: nat, scan: Scan)
    requires LaneInv(l, n, low) && ScanInv(l, n, scan) && l.head < U64
    ensures ScanInv(Moved(l, scan), n, Step(l, n, scan))
  {
    match scan {
      case Chained(base, window, end, _) => ChainedKeeps(l, n, low, base, window, end);
      case Ahead(_, _, _, _, _) => AheadKeeps(l, n, low, scan);
      case _ => PositionKeeps(l, n, scan);
    }
  }

  /** Position `p` is not yet usable: it is not reserved, or something reserved at or below it
      is unfinished. */
  ghost predicate Blocked(l: Lane, p: nat) {
    !(p < l.head && forall b | b in l.reserved && b <= p :: b in l.finished)
  }

  ghost function UsableFrom(l: Lane, p: nat): (e: nat)
    requires p <= l.head
    ensures p <= e <= l.head && Blocked(l, e)
    ensures forall q | p <= q < e :: !Blocked(l, q)
    decreases l.head - p
  {
    if Blocked(l, p) then p else UsableFrom(l, p + 1)
  }

  /** How far the lane really is: every position below is usable, whatever the frontier says. */
  ghost function Usable(l: Lane): (e: nat)
    ensures e <= l.head
    ensures forall p: nat :: Blocked(l, p) <==> e <= p
  {
    UsableFrom(l, 0)
  }

  /** An advance for a caller whose own side ends at `floor` starts and ends at or past it. */
  ghost predicate Above(scan: Scan, floor: int) {
    match scan
    case LoadFrontier => true
    case LoadBound(base) => floor <= base
    case Chained(base, _, _, _) => floor <= base
    case Ahead(base, _, _, _, _) => floor <= base
    case Swap(_, end) => floor <= end
    case Reload(end) => floor <= end
    case Final(end) => floor <= end
  }

  /** Where an advance ends, or is bound to end, is no less than what was usable past `floor` at
      some instant of it. `fewest` is the least of these amounts so far. */
  ghost predicate Honest(n: nat, scan: Scan, floor: int, fewest: nat) {
    match scan
    case LoadFrontier => true
    case LoadBound(_) => true
    case Chained(base, window, _, _) => window < n ==> fewest <= base + window - floor
    case Ahead(base, window, _, _, _) => window < n ==> fewest <= base + window - floor
    case Swap(_, end) => fewest <= end - floor
    case Reload(end) => fewest <= end - floor
    case Final(end) => fewest <= end - floor
  }

  lemma StepAbove(l: Lane, n: nat, scan: Scan, floor: int)
    requires 0 < n == |l.records| && floor <= l.frontier && Above(scan, floor)
    ensures Above(Step(l, n, scan), floor)
  {
  }

  /** A refused record is the record of an unfinished interval. */
  lemma RefusedAtEnd(l: Lane, n: nat, low: nat, scan: Scan)
    requires LaneInv(l, n, low) && ScanInv(l, n, scan) && scan.Chained? && l.head <= scan.base + n
    requires !Accepts(scan.base, scan.window, scan.end, l.records[Slot(scan.end, n)])
    ensures Blocked(l, scan.end)
  {
    RefusedRecord(l, n, low, scan.end, scan.base + scan.window);
  }

  lemma ContinueHonest(n: nat, base: nat, window: nat, end: nat, stride: nat, floor: int, fewest: nat)
    requires base <= end <= base + window && fewest <= base + window - floor
    ensures Honest(n, Continue(base, window, end, stride), floor, fewest)
    ensures Honest(n, AfterAhead(base, window, end, stride), floor, fewest)
  {
  }

  lemma ChainedHonest(l: Lane, n: nat, low: nat, scan: Scan, floor: int, fewest: nat)
    requires LaneInv(l, n, low) && ScanInv(l, n, scan) && scan.Chained? && floor <= scan.base && l.head <= floor + n
    requires fewest <= scan.base + scan.window - floor && (Blocked(l, scan.end) ==> fewest <= scan.end - floor)
    ensures Honest(n, Step(l, n, scan), floor, fewest)
  {
    var v := l.records[Slot(scan.end, n)];
    if Accepts(scan.base, scan.window, scan.end, v) {
      hide LaneInv, ScanInv, Slot;
      ContinueHonest(n, scan.base, scan.window, v, v - scan.end, floor, fewest);
    } else {
      RefusedAtEnd(l, n, low, scan);
      hide LaneInv, ScanInv, Slot;
    }
  }

  /** Discovery ends on a refused record or at the end of its window, and each shows how little
      there was: at this load, or at the load of the bound. */
  lemma StepHonest(l: Lane, n: nat, low: nat, scan: Scan, floor: int, fewest: nat)
    requires LaneInv(l, n, low) && ScanInv(l, n, scan) && l.head < U64
    requires Above(scan, floor) && Honest(n, scan, floor, fewest) && l.head <= floor + n
    requires forall p: nat | floor <= p && Blocked(l, p) :: fewest <= p - floor
    ensures Honest(n, Step(l, n, scan), floor, fewest)
  {
    hide AcceptAhead, RecordsInv, Tiled, LoadedInv, Slot;
    assert Blocked(l, l.head);
    match scan {
      case Chained(_, _, _, _) =>
        ChainedHonest(l, n, low, scan, floor, fewest);
      case Ahead(base, window, end, stride, loaded) =>
        if !Predicting(scan) {
          ContinueHonest(n, base, window, AcceptAhead(base, window, end, stride, window, loaded), stride, floor, fewest);
        }
      case LoadBound(base) =>
        ContinueHonest(n, base, Min(l.head - base, n), base, 0, floor, fewest);
      case _ =>
    }
  }
}
