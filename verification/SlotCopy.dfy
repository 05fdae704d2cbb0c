/** Copying an interval in and out of the ring: at most two contiguous parts, cut at the end of the
    storage. */
module SlotCopy {
  import opened Lanes

  /** The place in the interval that starts at slot `base` which `slot` holds. */
  function Offset(slot: nat, n: nat, base: nat): nat
    requires slot < n && base < n
  {
    if base <= slot then slot - base else slot + n - base
  }

  /** Past the end of the storage the slots go on from zero. */
  function Wrapped(base: nat, i: nat, n: nat): nat
    requires base < n && i < n
  {
    if base + i < n then base + i else base + i - n
  }

  /** The `i`-th position from `start` has the `i`-th slot from the slot of `start`, and no other place
      below a lap has that slot. */
  lemma SlotOfPosition(start: nat, n: nat, i: nat)
    requires n > 0 && i < n
    ensures Slot(start + i, n) == Wrapped(Slot(start, n), i, n)
    ensures Offset(Slot(start + i, n), n, Slot(start, n)) == i
  {
    var q, r := start / n, Slot(start, n);
    assert start == n * q + r;
    if r + i < n {
      UniqueRemainder(n, (start + i) / n, Slot(start + i, n), q, r + i);
    } else {
      assert n * (q + 1) == n * q + n;
      UniqueRemainder(n, (start + i) / n, Slot(start + i, n), q + 1, r + i - n);
    }
  }

  /** The storage after `items` are written from slot `base` on. */
  function Written<T>(entries: seq<T>, base: nat, items: seq<T>): (after: seq<T>)
    requires base < |entries| && |items| <= |entries|
    ensures |after| == |entries|
  {
    seq(|entries|, j requires 0 <= j < |entries| =>
      if Offset(j, |entries|, base) < |items| then items[Offset(j, |entries|, base)] else entries[j])
  }

  /** The items read from slot `base` on. */
  function ReadFrom<T>(entries: seq<T>, base: nat, count: nat): (items: seq<T>)
    requires base < |entries| && count <= |entries|
    ensures |items| == count
  {
    seq(count, i requires 0 <= i < count => entries[Wrapped(base, i, |entries|)])
  }

  /** Writing an interval leaves alone every interval that ends within a lap of it. */
  lemma ReadOther<T>(entries: seq<T>, start: nat, items: seq<T>, other: nat, count: nat)
    requires |entries| > 0 && |items| <= |entries| && count <= |entries|
    requires start + |items| <= other && other + count <= start + |entries|
    ensures ReadFrom(Written(entries, Slot(start, |entries|), items), Slot(other, |entries|), count)
         == ReadFrom(entries, Slot(other, |entries|), count)
  {
    hide Slot, Written;
    var n := |entries|;
    var after, base, from := Written(entries, Slot(start, n), items), Slot(start, n), Slot(other, n);
    forall i | 0 <= i < count ensures after[Wrapped(from, i, n)] == entries[Wrapped(from, i, n)] {
      SlotOfPosition(other, n, i);
      SlotOfPosition(start, n, other + i - start);
      NotWritten(entries, base, items, Wrapped(from, i, n));
    }
  }

  lemma NotWritten<T>(entries: seq<T>, base: nat, items: seq<T>, j: nat)
    requires base < |entries| && |items| <= |entries| && j < |entries| && Offset(j, |entries|, base) >= |items|
    ensures Written(entries, base, items)[j] == entries[j]
  {
  }

  /** The storage after further intervals, each a start and its items, are written in turn. */
  function WrittenAll<T>(entries: seq<T>, writes: seq<(nat, seq<T>)>): (after: seq<T>)
    requires |entries| > 0 && forall w | w in writes :: |w.1| <= |entries|
    ensures |after| == |entries|
  {
    if writes == [] then entries
    else
      var w := writes[|writes| - 1];
      Written(WrittenAll(entries, writes[..|writes| - 1]), Slot(w.0, |entries|), w.1)
  }

  lemma ReadBack<T>(entries: seq<T>, base: nat, items: seq<T>)
    requires base < |entries| && |items| <= |entries|
    ensures ReadFrom(Written(entries, base, items), base, |items|) == items
  {
  }

  /** What was written comes back, after any number of writes to the rest of the lap. */
  lemma {:induction false} ReadWritten<T>(entries: seq<T>, start: nat, items: seq<T>, writes: seq<(nat, seq<T>)>)
    requires 0 < |entries| && |items| <= |entries|
    requires forall w | w in writes :: start + |items| <= w.0 && w.0 + |w.1| <= start + |entries|
    ensures ReadFrom(WrittenAll(Written(entries, Slot(start, |entries|), items), writes), Slot(start, |entries|), |items|)
         == items
  {
    if writes == [] {
      ReadBack(entries, Slot(start, |entries|), items);
    } else {
      var n, w := |entries|, writes[|writes| - 1];
      ReadWritten(entries, start, items, writes[..|writes| - 1]);
      NextLap(start, n);
      hide Slot, Written, ReadFrom;
      ReadOther(WrittenAll(Written(entries, Slot(start, n), items), writes[..|writes| - 1]), w.0, w.1, start + n, |items|);
    }
  }

  lemma NextLap(start: nat, n: nat)
    requires n > 0
    ensures Slot(start + n, n) == Slot(start, n)
  {
    assert n * (start / n + 1) == n * (start / n) + n;
    UniqueRemainder(n, (start + n) / n, Slot(start + n, n), start / n + 1, Slot(start, n));
  }

  /** Writing the next slot extends what is written by the next item. */
  lemma WrittenNext<T>(entries: seq<T>, start: nat, items: seq<T>, item: T)
    requires |items| < |entries|
    ensures Written(entries, Slot(start, |entries|), items)[Slot(start + |items|, |entries|) := item]
         == Written(entries, Slot(start, |entries|), items + [item])
  {
    var n, base := |entries|, Slot(start, |entries|);
    SlotOfPosition(start, n, |items|);
    hide Slot;
  }

  /** Copies `items[from..to]` to consecutive slots from `base`. */
  method CopyIn<T>(entries: array<T>, base: nat, items: seq<T>, from: nat, to: nat)
    requires from <= to <= |items| && base + (to - from) <= entries.Length
    modifies entries
    ensures forall j | 0 <= j < entries.Length ::
      entries[j] == if base <= j < base + (to - from) then items[from + (j - base)] else old(entries[j])
  {
    for k := 0 to to - from
      invariant forall j | 0 <= j < entries.Length ::
        entries[j] == if base <= j < base + k then items[from + (j - base)] else old(entries[j])
    {
      entries[base + k] := items[from + k];
    }
  }

  /** The producer's copy: every item is at its own slot and no other slot changes. */
  method WriteProducer<T>(entries: array<T>, start: nat, items: seq<T>)
    requires 0 < |items| <= entries.Length
    modifies entries
    ensures entries[..] == Written(old(entries[..]), Slot(start, entries.Length), items)
  {
    var n, base := entries.Length, Slot(start, entries.Length);
    if |items| == 1 {
      entries[base] := items[0];
      return;
    }
    var first := if |items| <= n - base then |items| else n - base;
    CopyIn(entries, base, items, 0, first);
    CopyIn(entries, 0, items, first, |items|);
  }

  method ClearPart<T>(entries: array<T>, from: nat, to: nat, zero: T)
    requires from <= to <= entries.Length
    modifies entries
    ensures forall j | 0 <= j < entries.Length :: entries[j] == if from <= j < to then zero else old(entries[j])
  {
    for k := from to to
      invariant forall j | 0 <= j < entries.Length :: entries[j] == if from <= j < k then zero else old(entries[j])
    {
      entries[k] := zero;
    }
  }

  /** The consumer's copy: the items come out in order, and with clearing on exactly their slots are
      cleared. */
  method ReadConsumer<T>(entries: array<T>, start: nat, count: nat, clear: bool, zero: T) returns (items: seq<T>)
    requires 0 < count <= entries.Length
    modifies entries
    ensures items == ReadFrom(old(entries[..]), Slot(start, entries.Length), count)
    ensures entries[..] == if clear then Written(old(entries[..]), Slot(start, entries.Length), seq(count, _ => zero))
                           else old(entries[..])
  {
    var n, base := entries.Length, Slot(start, entries.Length);
    var first := if count <= n - base then count else n - base;
    items := entries[base..base + first] + entries[..count - first];
    hide Slot;
    if clear {
      ClearPart(entries, base, base + first, zero);
      ClearPart(entries, 0, count - first, zero);
    }
  }
}
