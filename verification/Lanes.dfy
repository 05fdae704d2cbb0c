/** One side of a frontier queue.

    Callers on a side reserve consecutive intervals of positions by moving `head`, and
    finish an interval by storing its absolute end in the record of its first slot.
    `frontier` is the shared position up to which somebody has already proved that every
    interval is finished. Records are never cleared, so a slot still shows the record of an
    earlier lap until the current lap finishes. */
module Lanes {

  /** The slot of a position. The queue computes it as `uint32(p) & mask`, where mask + 1 is the
      number of slots and a power of two. */
  function Slot(p: nat, n: nat): (slot: nat)
    requires n > 0
    ensures slot < n
  {
    p % n
  }

  lemma WholeLaps(n: nat, d: int)
    ensures d >= 1 ==> n * d >= n
    ensures d <= -1 ==> n * d <= 0 - n
  {
  }

  lemma UniqueRemainder(n: nat, q: int, r: nat, q': int, r': nat)
    requires r < n && r' < n && n * q + r == n * q' + r'
    ensures q == q' && r == r'
  {
    assert n * (q - q') == r' - r;
    WholeLaps(n, q - q');
  }

  /** Taking the low 32 bits first does not change the slot when `n` divides 2^32. */
  lemma SlotIsMasked(p: nat, n: nat, laps: nat)
    requires n > 0 && n * laps == 0x1_0000_0000
    ensures Slot(p, n) == Slot(p % 0x1_0000_0000, n)
  {
    var low, wraps := p % 0x1_0000_0000, p / 0x1_0000_0000;
    assert n * (laps * wraps + low / n) == (n * laps) * wraps + n * (low / n);
    UniqueRemainder(n, p / n, p % n, laps * wraps + low / n, low % n);
  }

  /** Positions that share a slot and are less than a lap apart are equal. */
  lemma SlotsApart(n: nat, p: nat, q: nat)
    requires n > 0 && Slot(p, n) == Slot(q, n) && p < q + n && q < p + n
    ensures p == q
  {
    assert n * (p / n - q / n) == p - q;
    WholeLaps(n, p / n - q / n);
  }

  /** `reserved` (start to end of every interval ever reserved) and `finished` (starts whose
      record has been stored) are history: no operation of the queue reads them. */
  datatype Lane = Lane(
    head: nat,
    frontier: nat,
    records: seq<nat>,
    reserved: map<nat, nat>,
    finished: set<nat>)
  {
    function Reserve(count: nat): Lane {
      this.(head := head + count, reserved := reserved[head := head + count])
    }

    function Finish(start: nat, end: nat): Lane
      requires |records| > 0
    {
      this.(records := records[Slot(start, |records|) := end], finished := finished + {start})
    }

    function Raise(end: nat): Lane {
      this.(frontier := end)
    }
  }

  function InitLane(n: nat): Lane {
    Lane(0, 0, seq(n, _ => 0), map[], {})
  }

  /** `e` is a start of an interval, or the end of the last one. */
  ghost predicate Boundary(reserved: map<nat, nat>, head: nat, e: nat) {
    e == head || e in reserved
  }

  /** The interval after the one that starts at `b` starts where that one ends. */
  ghost predicate Continued(reserved: map<nat, nat>, head: nat, b: nat) {
    b in reserved && Boundary(reserved, head, reserved[b])
  }

  /** The reserved intervals tile [0, head), and none is longer than a lap. */
  ghost predicate Tiled(reserved: map<nat, nat>, head: nat, n: nat) {
    && Boundary(reserved, head, 0)
    && (forall b | b in reserved :: b < reserved[b] <= head && reserved[b] <= b + n)
    && (forall b {:trigger Continued(reserved, head, b)} | b in reserved :: Continued(reserved, head, b))
    && (forall b, c | b in reserved && c in reserved && b < c :: reserved[b] <= c)
  }

  /** Everything reserved below the boundary `e` is finished. */
  ghost predicate Proven(l: Lane, e: nat) {
    && e <= l.head
    && Boundary(l.reserved, l.head, e)
    && (forall b | b in l.reserved && b < e :: b in l.finished)
  }

  /** `v` was stored in `slot` at some time, or is the initial zero. */
  ghost predicate Recorded(l: Lane, n: nat, slot: nat, v: nat)
    requires n > 0
  {
    v == 0 || exists b :: b in l.finished && b in l.reserved && Slot(b, n) == slot && l.reserved[b] == v
  }

  /** A finished interval shows its own end until its slot is reserved for the next lap. */
  ghost predicate RecordsInv(l: Lane, n: nat) {
    && 0 < n == |l.records|
    && l.finished <= l.reserved.Keys
    && (forall i | 0 <= i < n :: Recorded(l, n, i, l.records[i]))
    && (forall b | b in l.finished && l.head <= b + n :: l.records[Slot(b, n)] == l.reserved[b])
  }

  /** `low` is the position below which slots may already be in use for the next lap. */
  ghost predicate LaneInv(l: Lane, n: nat, low: nat) {
    && Tiled(l.reserved, l.head, n)
    && RecordsInv(l, n)
    && Proven(l, l.frontier)
    && low <= l.frontier
    && l.head <= low + n
  }

  /** Everything that is never undone as a lane moves on. */
  ghost predicate Grows(l: Lane, l': Lane) {
    && l.head <= l'.head
    && l.frontier <= l'.frontier
    && l.finished <= l'.finished
    && (forall b | b in l.reserved :: b in l'.reserved && l'.reserved[b] == l.reserved[b])
    && (forall b | b in l'.reserved && b < l.head :: b in l.reserved)
    && (l.head == l'.head || l.head in l'.reserved)
  }

  lemma InitLaneInv(n: nat)
    requires n > 0
    ensures LaneInv(InitLane(n), n, 0)
  {
  }

  lemma GrowsReflexive(l: Lane)
    ensures Grows(l, l)
  {
  }

  lemma GrowsTransitive(a: Lane, b: Lane, c: Lane)
    requires Grows(a, b) && Grows(b, c)
    ensures Grows(a, c)
  {
  }

  lemma ProvenStable(l: Lane, l': Lane, e: nat)
    requires Proven(l, e) && Grows(l, l')
    ensures Proven(l', e)
  {
  }

  lemma RecordedStable(l: Lane, l': Lane, n: nat, slot: nat, v: nat)
    requires n > 0 && Recorded(l, n, slot, v) && Grows(l, l')
    ensures Recorded(l', n, slot, v)
  {
  }

  /** An unfinished interval starts at or past every proven boundary. */
  lemma UnfinishedPast(l: Lane, e: nat, start: nat)
    requires Proven(l, e) && start in l.reserved && start !in l.finished
    ensures e <= start
  {
  }

  lemma ReserveTiles(reserved: map<nat, nat>, head: nat, n: nat, count: nat)
    requires Tiled(reserved, head, n) && 0 < count <= n
    ensures Tiled(reserved[head := head + count], head + count, n)
  {
    var reserved', head' := reserved[head := head + count], head + count;
    forall b | b in reserved' ensures Continued(reserved', head', b) {
      assert b in reserved ==> Continued(reserved, head, b);
    }
  }

  lemma ReserveGrows(l: Lane, n: nat, count: nat)
    requires Tiled(l.reserved, l.head, n)
    ensures l.head !in l.reserved && Grows(l, l.Reserve(count))
  {
  }

  lemma ReserveRecords(l: Lane, n: nat, count: nat)
    requires RecordsInv(l, n) && l.head !in l.reserved && 0 < count
    requires Grows(l, l.Reserve(count))
    ensures RecordsInv(l.Reserve(count), n)
  {
    hide Grows;
    var l' := l.Reserve(count);
    forall i | 0 <= i < n ensures Recorded(l', n, i, l'.records[i]) {
      RecordedStable(l, l', n, i, l.records[i]);
    }
  }

  lemma ReserveKeeps(l: Lane, n: nat, low: nat, count: nat)
    requires LaneInv(l, n, low) && 0 < count && l.head + count <= low + n
    ensures LaneInv(l.Reserve(count), n, low)
    ensures Grows(l, l.Reserve(count))
  {
    var l' := l.Reserve(count);
    hide RecordsInv, Tiled, Grows;
    ReserveTiles(l.reserved, l.head, n, count);
    ReserveGrows(l, n, count);
    ReserveRecords(l, n, count);
    ProvenStable(l, l', l.frontier);
  }

  lemma FinishKeeps(l: Lane, n: nat, low: nat, start: nat)
    requires LaneInv(l, n, low) && start in l.reserved && start !in l.finished
    ensures LaneInv(l.Finish(start, l.reserved[start]), n, low)
    ensures Grows(l, l.Finish(start, l.reserved[start]))
  {
    var l' := l.Finish(start, l.reserved[start]);
    UnfinishedPast(l, l.frontier, start);
    ProvenStable(l, l', l.frontier);
    forall i | 0 <= i < n ensures Recorded(l', n, i, l'.records[i]) {
      if i == Slot(start, n) {
        assert start in l'.finished;
      } else {
        RecordedStable(l, l', n, i, l.records[i]);
      }
    }
    forall b | b in l'.finished && l.head <= b + n ensures l'.records[Slot(b, n)] == l'.reserved[b] {
      if b != start && Slot(b, n) == Slot(start, n) {
        SlotsApart(n, b, start);
      }
    }
  }

  lemma RaiseKeeps(l: Lane, n: nat, low: nat, end: nat)
    requires LaneInv(l, n, low) && Proven(l, end) && l.frontier <= end
    ensures LaneInv(l.Raise(end), n, low)
    ensures Grows(l, l.Raise(end))
  {
    var l' := l.Raise(end);
    forall i | 0 <= i < n ensures Recorded(l', n, i, l'.records[i]) {
      RecordedStable(l, l', n, i, l.records[i]);
    }
  }

  lemma ReuseKeeps(l: Lane, n: nat, low: nat, low': nat)
    requires LaneInv(l, n, low) && low <= low' <= l.frontier
    ensures LaneInv(l, n, low')
  {
  }

  /** Lap rejection: a value that was once in the slot of boundary `b` and ends within one
      lap past `b` is the record of the interval that starts exactly at `b`. Records of
      earlier laps end at or before `b`, records of later laps end too far past it. */
  lemma AcceptedRecord(l: Lane, n: nat, low: nat, b: nat, v: nat)
    requires LaneInv(l, n, low)
    requires Recorded(l, n, Slot(b, n), v) && b < v <= b + n
    ensures b in l.finished && l.reserved[b] == v
  {
    var c :| c in l.finished && Slot(c, n) == Slot(b, n) && l.reserved[c] == v;
    SlotsApart(n, b, c);
  }

  /** Accepting the record at a proven boundary proves its end. */
  lemma AcceptedEnd(l: Lane, n: nat, low: nat, b: nat, v: nat)
    requires LaneInv(l, n, low) && Proven(l, b)
    requires Recorded(l, n, Slot(b, n), v) && b < v <= b + n
    ensures Proven(l, v)
  {
    AcceptedRecord(l, n, low, b, v);
    assert Continued(l.reserved, l.head, b);
  }

  /** The converse of lap rejection: while its slot is not reserved again, a finished interval
      shows exactly its own end, so a record that fails to validate is an unfinished interval. */
  lemma RefusedRecord(l: Lane, n: nat, low: nat, b: nat, limit: nat)
    requires LaneInv(l, n, low) && b in l.reserved && b < limit && l.head <= b + n
    requires Boundary(l.reserved, l.head, limit) || limit >= b + n
    requires !(b < l.records[Slot(b, n)] <= limit)
    ensures b !in l.finished
  {
  }

  /** Every position below `head` lies in exactly one interval. */
  lemma Covered(reserved: map<nat, nat>, head: nat, n: nat, from: nat, p: nat) returns (b: nat)
    requires Tiled(reserved, head, n) && Boundary(reserved, head, from) && from <= p < head
    ensures b in reserved && b <= p < reserved[b]
    decreases head - from
  {
    if p < reserved[from] {
      b := from;
    } else {
      assert Continued(reserved, head, from);
      b := Covered(reserved, head, n, reserved[from], p);
    }
  }

  lemma TilesApart(reserved: map<nat, nat>, head: nat, n: nat, b: nat, p: nat, c: nat, q: nat)
    requires Tiled(reserved, head, n) && b in reserved && c in reserved && b != c
    requires b <= p < reserved[b] && c <= q < reserved[c]
    ensures p != q
  {
  }
}
