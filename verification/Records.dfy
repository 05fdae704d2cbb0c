/** Record discovery over a record array that does not change meanwhile.

    Each finished interval [s, e) is recorded by its absolute end e in the slot of s. The plain
    form follows records one at a time; the fast form loads the records it predicts to come
    next before checking any of them. */
module Records {
  import opened Lanes

  const LOOKAHEAD: nat := 4
  const LOOKAHEAD_MIN_STRIDE: nat := 8

  /** The record `v` found at boundary `end` ends past it and within the window. */
  predicate Accepts(base: nat, window: nat, end: nat, v: nat)
    requires base <= end <= base + window
  {
    end < v && v - end <= window - (end - base)
  }

  /** Discovery goes on from `end`: neither the window nor the wanted distance is used up. */
  predicate Unsatisfied(base: nat, window: nat, end: nat, stopAt: nat)
    requires base <= end
  {
    end - base < window && end - base < stopAt
  }

  /** Plain discovery: follow one record after another. */
  function Chain(records: seq<nat>, base: nat, window: nat, end: nat, stopAt: nat): (r: nat)
    requires |records| > 0 && base <= end <= base + window
    ensures end <= r <= base + window
    decreases base + window - end
  {
    var v := records[Slot(end, |records|)];
    if Unsatisfied(base, window, end, stopAt) && Accepts(base, window, end, v)
    then Chain(records, base, window, v, stopAt)
    else end
  }

  /** The second loop of the lookahead: accept the loaded values in order while each one ends
      exactly `stride` past its boundary. */
  function AcceptAhead(base: nat, window: nat, end: nat, stride: nat, stopAt: nat, loaded: seq<nat>): (r: nat)
    requires base <= end <= base + window
    ensures end <= r <= base + window
    decreases |loaded|
  {
    if loaded == [] || end - base >= stopAt then end
    else if loaded[0] <= end || loaded[0] - end != stride || stride > window - (end - base) then end
    else AcceptAhead(base, window, loaded[0], stride, stopAt, loaded[1..])
  }

  /** `path` is a run of boundaries, each found by accepting the record at the one before. */
  ghost predicate Path(records: seq<nat>, base: nat, window: nat, stopAt: nat, path: seq<nat>)
    requires |records| > 0
  {
    && |path| > 0
    && base <= path[0] <= base + window
    && (|path| > 1 ==>
          && Unsatisfied(base, window, path[0], stopAt)
          && records[Slot(path[0], |records|)] == path[1]
          && Accepts(base, window, path[0], path[1])
          && Path(records, base, window, stopAt, path[1..]))
  }

  /** Discovery ends on a run of accepted records, at a boundary from which no run goes on. */
  lemma {:induction false} ChainIsPath(records: seq<nat>, base: nat, window: nat, end: nat, stopAt: nat)
    returns (path: seq<nat>)
    requires |records| > 0 && base <= end <= base + window
    ensures Path(records, base, window, stopAt, path) && path[0] == end
    ensures path[|path| - 1] == Chain(records, base, window, end, stopAt)
    ensures var last := path[|path| - 1];
            base <= last <= base + window &&
            !(Unsatisfied(base, window, last, stopAt) && Accepts(base, window, last, records[Slot(last, |records|)]))
    decreases base + window - end
  {
    var v := records[Slot(end, |records|)];
    if Unsatisfied(base, window, end, stopAt) && Accepts(base, window, end, v) {
      var rest := ChainIsPath(records, base, window, v, stopAt);
      path := [end] + rest;
      assert path[1..] == rest;
    } else {
      path := [end];
    }
  }

  /** No run of accepted records gets further than discovery does. */
  lemma {:induction false} ChainIsFurthest(records: seq<nat>, base: nat, window: nat, stopAt: nat, path: seq<nat>)
    requires |records| > 0 && Path(records, base, window, stopAt, path)
    ensures path[|path| - 1] <= Chain(records, base, window, path[0], stopAt)
    decreases |path|
  {
    if |path| > 1 {
      ChainIsFurthest(records, base, window, stopAt, path[1..]);
    }
  }

  /** Values loaded ahead of the predicted boundaries `end`, `end + stride`, .. are accepted only
      where plain discovery accepts them. */
  lemma {:induction false} AheadIsChained(
      records: seq<nat>, base: nat, window: nat, end: nat, stride: nat, stopAt: nat, loaded: seq<nat>)
    requires |records| > 0 && base <= end <= base + window && stride > 0
    requires forall k | 0 <= k < |loaded| :: loaded[k] == records[Slot(end + k * stride, |records|)]
    ensures Chain(records, base, window, AcceptAhead(base, window, end, stride, stopAt, loaded), stopAt)
         == Chain(records, base, window, end, stopAt)
    decreases |loaded|
  {
    if loaded != [] {
      assert loaded[0] == records[Slot(end + 0 * stride, |records|)];
      if end - base < stopAt && end < loaded[0] && loaded[0] - end == stride <= window - (end - base) {
        forall k | 0 <= k < |loaded[1..]|
          ensures loaded[1..][k] == records[Slot(loaded[0] + k * stride, |records|)]
        {
          assert loaded[1..][k] == loaded[k + 1];
          assert end + (k + 1) * stride == loaded[0] + k * stride;
        }
        AheadIsChained(records, base, window, loaded[0], stride, stopAt, loaded[1..]);
      }
    }
  }

  lemma {:induction false} AcceptAheadStep(
      base: nat, window: nat, end: nat, stride: nat, stopAt: nat, loaded: seq<nat>, lane: nat, reached: nat)
    requires base <= end <= base + window && lane < |loaded| && stride > 0
    requires base <= reached <= base + window
    requires reached == end + lane * stride
    requires AcceptAhead(base, window, end, stride, stopAt, loaded)
          == AcceptAhead(base, window, reached, stride, stopAt, loaded[lane..])
    requires reached - base < stopAt && loaded[lane] == reached + stride
    requires stride <= window - (reached - base)
    ensures AcceptAhead(base, window, end, stride, stopAt, loaded)
         == AcceptAhead(base, window, loaded[lane], stride, stopAt, loaded[lane + 1..])
    ensures loaded[lane] == end + (lane + 1) * stride
  {
    assert loaded[lane..][0] == loaded[lane];
    assert loaded[lane..][1..] == loaded[lane + 1..];
  }

  method DiscoverRecordsAhead(
      records: array<nat>, base: nat, window: nat, from: nat, stride: nat, stopAt: nat)
    returns (end: nat)
    requires records.Length > 0 && base <= from <= base + window && stride > 0
    ensures from <= end <= base + window
    ensures Chain(records[..], base, window, end, stopAt) == Chain(records[..], base, window, from, stopAt)
  {
    end := from;
    var ahead := new nat[LOOKAHEAD];
    var lanes := 0;
    while lanes < ahead.Length && end + lanes * stride - base < window
      invariant 0 <= lanes <= ahead.Length
      invariant forall k | 0 <= k < lanes :: ahead[k] == records[Slot(end + k * stride, records.Length)]
    {
      ahead[lanes] := records[Slot(end + lanes * stride, records.Length)];
      lanes := lanes + 1;
    }
    ghost var loaded := ahead[..lanes];
    var lane := 0;
    while lane < lanes && end - base < stopAt
      invariant 0 <= lane <= lanes <= ahead.Length && loaded == ahead[..lanes]
      invariant from <= end <= base + window && end == from + lane * stride
      invariant AcceptAhead(base, window, from, stride, stopAt, loaded)
             == AcceptAhead(base, window, end, stride, stopAt, loaded[lane..])
    {
      var recordEnd := ahead[lane];
      if recordEnd <= end || recordEnd - end != stride || stride > window - (end - base) {
        break;
      }
      AcceptAheadStep(base, window, from, stride, stopAt, loaded, lane, end);
      end := recordEnd;
      lane := lane + 1;
    }
    assert end == AcceptAhead(base, window, from, stride, stopAt, loaded);
    AheadIsChained(records[..], base, window, from, stride, stopAt, loaded);
  }

  /** Lookahead discovery returns the boundary that plain discovery returns. */
  method DiscoverRecords(records: array<nat>, base: nat, window: nat, frontier: nat, stopAt: nat)
    returns (end: nat)
    requires records.Length > 0 && base <= frontier <= base + window
    ensures end == Chain(records[..], base, window, frontier, stopAt)
  {
    end := frontier;
    var stride := 0;
    while end - base < window
      invariant base <= end <= base + window
      invariant Chain(records[..], base, window, end, stopAt) == Chain(records[..], base, window, frontier, stopAt)
      decreases base + window - end
    {
      if end - base >= stopAt {
        break;
      }
      if stride >= LOOKAHEAD_MIN_STRIDE {
        end := DiscoverRecordsAhead(records, base, window, end, stride, stopAt);
        if end - base >= window || end - base >= stopAt {
          break;
        }
      }
      var recordEnd := records[Slot(end, records.Length)];
      if recordEnd <= end || recordEnd - end > window - (end - base) {
        break;
      }
      stride := recordEnd - end;
      end := recordEnd;
    }
  }
}
