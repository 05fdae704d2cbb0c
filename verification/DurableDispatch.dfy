/** The scan that claims pending entries for delivery. It walks the pending rows in acceptance order from a
    cursor that outlives a call, and goes round once more before it believes that there is nothing to do. */
module DurableDispatch {
  import opened DurableBudget
  import opened DurableDelivery

  /** A pending row of the store. Orders are positive and unique. */
  datatype Row = Row(order: nat, id: nat, payload: nat, codec: nat)

  ghost predicate Sorted(rows: seq<Row>) {
    && (forall i | 0 <= i < |rows| :: rows[i].order > 0)
    && (forall i, j | 0 <= i < j < |rows| :: rows[i].order < rows[j].order)
  }

  /** The row needs nothing for now: it is claimed, or its charge does not fit beside the claims there are. */
  ghost predicate Served(claims: seq<Claim>, retained: nat, budget: nat, row: Row) {
    || (exists i :: 0 <= i < |claims| && claims[i].used && claims[i].id == row.id)
    || retained + DeliveryCharge(row.payload, row.codec) > budget
  }

  /** Every row up to the cursor is served. */
  ghost predicate Passed(claims: seq<Claim>, retained: nat, budget: nat, rows: seq<Row>, cursor: nat) {
    forall k | 0 <= k < |rows| && rows[k].order <= cursor :: Served(claims, retained, budget, rows[k])
  }

  /** Claims are only added. */
  ghost predicate Kept(was: seq<Claim>, now: seq<Claim>) {
    |now| == |was| && forall i | 0 <= i < |was| && was[i].used :: now[i].used && now[i].id == was[i].id
  }

  function Ids(rows: seq<Row>): set<nat> {
    set k | 0 <= k < |rows| :: rows[k].id
  }

  /** Every claim is for a pending row. */
  ghost predicate OfPending(claims: seq<Claim>, ids: set<nat>) {
    forall i | 0 <= i < |claims| && claims[i].used :: claims[i].id in ids
  }

  lemma PassedKept(
      was: seq<Claim>, now: seq<Claim>, retained: nat, retained': nat, budget: nat, rows: seq<Row>, cursor: nat)
    requires Kept(was, now) && retained <= retained' && Passed(was, retained, budget, rows, cursor)
    ensures Passed(now, retained', budget, rows, cursor)
  {
    hide DeliveryCharge;
    forall k | 0 <= k < |rows| && rows[k].order <= cursor ensures Served(now, retained', budget, rows[k]) {
      assert Served(was, retained, budget, rows[k]);
    }
  }

  /** One of the tokens is current for the identity. */
  ghost predicate Acked(claims: seq<Claim>, tokens: seq<Delivered>, id: nat) {
    exists i :: 0 <= i < |claims| && claims[i].used && claims[i].acquired && claims[i].id == id && DeliveredOf(claims[i]) in tokens
  }

  lemma FreedPending(was: seq<Claim>, now: seq<Claim>, tokens: seq<Delivered>, ids: set<nat>)
    requires OfPending(was, ids) && Freed(was, now, tokens)
    ensures OfPending(now, ids)
  {
  }

  /** Once the acknowledged claims are given up, every claim is for a row that is still pending. */
  lemma AckedFree(was: seq<Claim>, lastAttempt: nat, now: seq<Claim>, tokens: seq<Delivered>, ids: set<nat>, left: set<nat>)
    requires Distinct(was, lastAttempt) && OfPending(was, ids) && Freed(was, now, tokens)
    requires forall id | id in ids && id !in left :: Acked(was, tokens, id)
    ensures OfPending(now, left)
  {
    forall i | 0 <= i < |now| && now[i].used ensures now[i].id in left {
      assert now[i] == was[i];
      assert !Acked(was, tokens, was[i].id);
    }
  }

  /** What happens while the coordinator reads an entry: receivers take deliveries, and delivery may stop. */
  datatype Event = Receive(limit: nat) | StopDelivery

  datatype Reading = Reading(events: seq<Event>, failed: bool)

  class Dispatcher {
    const d: Deliveries
    var rows: seq<Row>
    var dirty: bool
    var wrapped: bool
    var cursor: nat

    constructor (config: Config, rows: seq<Row>)
      requires Accepted(config) && Sorted(rows)
      ensures Valid() && fresh(d) && fresh(d.claims) && this.rows == rows && dirty && !wrapped && d.reading == -1
    {
      hide Accepted;
      d := new Deliveries(config);
      this.rows, dirty, wrapped, cursor := rows, true, false, 0;
    }

    ghost predicate AllPassed(cursor: nat)
      reads this, d, d.claims
    {
      Passed(d.claims[..], d.retained, d.config.deliveryRetained, rows, cursor)
    }

    /** Nothing is left to dispatch: no claim slot is free, or every pending row is claimed or does not fit. */
    ghost predicate Quiet()
      reads this, d, d.claims
    {
      || (forall i | 0 <= i < d.claims.Length :: d.claims[i].used)
      || (forall k | 0 <= k < |rows| :: Served(d.claims[..], d.retained, d.config.deliveryRetained, rows[k]))
    }

    /** In a second round everything the scan has passed is served. When the scan rests, nothing is left to
        dispatch. */
    ghost predicate Valid()
      reads this, d, d.claims
    {
      && d.Valid() && Sorted(rows) && OfPending(d.claims[..], Ids(rows))
      && (wrapped && !d.stopped ==> AllPassed(cursor))
      && (!dirty && !d.stopped ==> Quiet())
    }

    /** Receivers and StopDelivery, between two critical sections of the coordinator. */
    method Meanwhile(events: seq<Event>)
      requires d.Valid()
      modifies d`queue, d`stopped, d.claims
      ensures d.Valid() && (old(d.stopped) ==> d.stopped)
      ensures Kept(old(d.claims[..]), d.claims[..]) && Kept(d.claims[..], old(d.claims[..]))
      ensures 0 <= d.reading < d.claims.Length ==> d.claims[d.reading] == old(d.claims[..])[d.reading]
    {
      ghost var was := d.claims[..];
      for i := 0 to |events|
        invariant d.Valid() && (old(d.stopped) ==> d.stopped) && Kept(was, d.claims[..]) && Kept(d.claims[..], was)
        invariant 0 <= d.reading < d.claims.Length ==> d.claims[d.reading] == was[d.reading]
      {
        Happen(events[i]);
      }
    }

    method Happen(e: Event)
      requires d.Valid()
      modifies d`queue, d`stopped, d.claims
      ensures d.Valid() && (old(d.stopped) ==> d.stopped)
      ensures Kept(old(d.claims[..]), d.claims[..]) && Kept(d.claims[..], old(d.claims[..]))
      ensures 0 <= d.reading < d.claims.Length ==> d.claims[d.reading] == old(d.claims[..])[d.reading]
    {
      match e {
        case Receive(limit) =>
          if !d.stopped {
            ghost var was, queue := d.claims[..], d.queue;
            var got := d.Receive(limit);
            AcquiredSame(was, queue, d.reading, |got|);
          }
        case StopDelivery =>
          d.Stop();
      }
    }

    /** The first row past the cursor. */
    method NextRow() returns (found: bool, k: nat)
      ensures found ==> k < |rows| && cursor < rows[k].order && forall j | 0 <= j < k :: rows[j].order <= cursor
      ensures !found ==> forall j | 0 <= j < |rows| :: rows[j].order <= cursor
    {
      for i := 0 to |rows|
        invariant forall j | 0 <= j < i :: rows[j].order <= cursor
      {
        if rows[i].order > cursor {
          return true, i;
        }
      }
      return false, 0;
    }

    /** How many orders the scan has still to pass in this round, and what is left after this round. */
    ghost function Left(): nat
      reads this
    {
      if rows != [] && cursor < rows[|rows| - 1].order then rows[|rows| - 1].order - cursor else 0
    }

    /** Claims one row and reads its delivery, unless it does not fit now. A fault stops delivery. */
    method LoadRow(free: nat, k: nat, reading: Reading)
      requires d.Valid() && d.reading == -1 && !d.stopped && free < d.claims.Length && !d.claims[free].used && k < |rows|
      requires forall i | 0 <= i < d.claims.Length && d.claims[i].used :: d.claims[i].id != rows[k].id
      requires OfPending(d.claims[..], Ids(rows))
      modifies d, d.claims
      ensures d.Valid() && d.reading == -1 && OfPending(d.claims[..], Ids(rows))
      ensures !d.stopped ==> Kept(old(d.claims[..]), d.claims[..]) && old(d.retained) <= d.retained
      ensures !d.stopped ==> Served(d.claims[..], d.retained, d.config.deliveryRetained, rows[k])
    {
      hide DeliveryCharge;
      var row := rows[k];
      ghost var was := d.claims[..];
      var started := d.StartReading(free, row.id, row.payload, row.codec);
      if started.Corrupt? || started.AttemptsOver? {
        d.Stop();
      } else if started.StartedAt? {
        ghost var claimed := d.claims[..];
        assert claimed[free].used && claimed[free].id == row.id && Kept(was, claimed);
        assert row.id in Ids(rows);
        Meanwhile(reading.events);
        ghost var now := d.claims[..];
        assert now[free] == claimed[free];
        var queued := d.EndReading(free, reading.failed);
        if reading.failed {
          d.Stop();
        }
        assert !d.stopped ==> d.claims[..] == now;
      }
    }

    lemma Passes(k: nat)
      requires Sorted(rows) && k < |rows| && cursor < rows[k].order && (forall j | 0 <= j < k :: rows[j].order <= cursor)
      requires AllPassed(cursor) && Served(d.claims[..], d.retained, d.config.deliveryRetained, rows[k])
      ensures AllPassed(rows[k].order)
    {
      hide Served;
    }

    /** Passes one row, claiming it unless it is claimed or does not fit now. */
    method PassRow(free: nat, k: nat, reading: Reading)
      requires Valid() && d.reading == -1 && dirty && !d.stopped && free < d.claims.Length && !d.claims[free].used
      requires k < |rows| && cursor < rows[k].order && forall j | 0 <= j < k :: rows[j].order <= cursor
      modifies this`cursor, d, d.claims
      ensures Valid() && d.reading == -1 && cursor == rows[k].order
    {
      hide Served, Sorted;
      var claimed, index := d.ClaimOf(rows[k].id);
      ghost var was, retained := d.claims[..], d.retained;
      if claimed {
        ClaimServes(index, k);
      } else {
        LoadRow(free, k, reading);
      }
      hide Deliveries.Valid;
      if wrapped && !d.stopped {
        PassedKept(was, d.claims[..], retained, d.retained, d.config.deliveryRetained, rows, cursor);
        Passes(k);
      }
      cursor := rows[k].order;
    }

    /** The scan is at the end: after its second round it rests, else it goes round again. */
    method EndRound()
      requires Valid() && dirty && forall j | 0 <= j < |rows| :: rows[j].order <= cursor
      modifies this`dirty, this`wrapped, this`cursor
      ensures Valid() && wrapped == !old(wrapped) && dirty == wrapped
    {
      hide Served, Deliveries.Valid;
      assert wrapped && !d.stopped ==> Quiet();
      cursor, dirty, wrapped := 0, !wrapped, !wrapped;
    }

    /** One row of the scan. The scan rests when no claim slot is free, or at the end of its second round. */
    method ScanRow(reading: Reading) returns (more: bool)
      requires Valid() && d.reading == -1 && dirty && !d.stopped
      modifies this`dirty, this`wrapped, this`cursor, d, d.claims
      ensures Valid() && d.reading == -1
      ensures more && !d.stopped ==> dirty && wrapped == old(wrapped) && Left() < old(Left())
      ensures !more && dirty ==> wrapped && !old(wrapped)
    {
      var found, free := d.FreeSlot();
      hide Deliveries.Valid, Served, Passed;
      if !found {
        dirty, wrapped := false, false;
        return false;
      }
      var next, k := NextRow();
      if next {
        PassRow(free, k, reading);
      } else {
        EndRound();
      }
      return next;
    }

    lemma ClaimServes(index: nat, k: nat)
      requires index < d.claims.Length && k < |rows| && d.claims[index].used && d.claims[index].id == rows[k].id
      ensures Served(d.claims[..], d.retained, d.config.deliveryRetained, rows[k])
    {
      assert d.claims[..][index].used;
    }

    /** One call of the scan: at most as many rows as configured. Unless delivery stops, it comes to rest or
        gets nearer to it. */
    method Dispatch(env: nat -> Reading) returns (rest: bool)
      requires Valid() && d.reading == -1 && dirty && !d.stopped
      modifies this`dirty, this`wrapped, this`cursor, d, d.claims
      ensures Valid() && d.reading == -1
      ensures !d.stopped && dirty ==> (wrapped && !old(wrapped)) || (wrapped == old(wrapped) && Left() < old(Left()))
      ensures rest <==> d.stopped || !dirty
    {
      ScansSome();
      hide Valid;
      var more, i := true, 0;
      while i < d.config.scanRows && more && !d.stopped
        invariant Valid() && d.reading == -1 && i <= d.config.scanRows
        invariant more && !d.stopped ==> dirty && wrapped == old(wrapped) && (if i == 0 then Left() == old(Left()) else Left() < old(Left()))
        invariant !more && dirty ==> wrapped && !old(wrapped)
      {
        more := ScanRow(env(i));
        i := i + 1;
      }
      rest := d.stopped || !dirty;
    }

    lemma ScansSome()
      requires Valid()
      ensures d.config.scanRows > 0
    {
    }

    /** No dispatch is lost: the coordinator dispatches until the scan rests, which it does, and then every
        pending row is claimed or does not fit, or no claim slot is free, or delivery has stopped. */
    method DispatchAll(env: nat -> nat -> Reading)
      requires Valid() && d.reading == -1
      modifies this`dirty, this`wrapped, this`cursor, d, d.claims
      ensures Valid() && d.reading == -1 && (d.stopped || (!dirty && Quiet()))
    {
      var calls := 0;
      while dirty && !d.stopped
        invariant Valid() && d.reading == -1
        decreases !d.stopped && dirty, if wrapped then 0 else 1, Left()
      {
        var rest := Dispatch(env(calls));
        calls := calls + 1;
      }
    }

    /** A transaction has committed: the pending rows are new, acknowledged claims are given up, and the scan
        has to go round again. A row leaves the pending rows only when a current token acknowledges it. */
    method Commit(pending: seq<Row>, acked: seq<Delivered>)
      requires Valid() && d.reading == -1 && Sorted(pending)
      requires forall id | id in Ids(rows) && id !in Ids(pending) :: Acked(d.claims[..], acked, id)
      modifies this`rows, this`dirty, this`wrapped, d`retained, d`reading, d.claims
      ensures Valid() && d.reading == -1 && rows == pending && dirty && !wrapped
      ensures Freed(old(d.claims[..]), d.claims[..], acked)
      ensures forall k | 0 <= k < |acked| :: !Current(d.claims[..], acked[k].id, acked[k].attempt)
    {
      ghost var was := d.claims[..];
      d.ReleaseAll(acked);
      AckedFree(was, d.lastAttempt, d.claims[..], acked, Ids(rows), Ids(pending));
      hide Quiet, AllPassed, Freed, Acked, OfPending, Ids, Current;
      rows, dirty, wrapped := pending, true, false;
      Resumes();
    }

    /** A scan that is to go round again promises nothing yet. */
    lemma Resumes()
      requires d.Valid() && Sorted(rows) && OfPending(d.claims[..], Ids(rows)) && dirty && !wrapped
      ensures Valid()
    {
    }

    /** A release that succeeds frees a claim, so the scan has to go round again. */
    method Release(id: nat, attempt: nat) returns (released: bool)
      requires Valid() && d.reading == -1
      modifies this`dirty, this`wrapped, d`retained, d`reading, d.claims
      ensures Valid() && d.reading == -1 && (released ==> dirty && !wrapped)
      ensures released <==> Current(old(d.claims[..]), id, attempt)
      ensures Freed(old(d.claims[..]), d.claims[..], [Delivered(id, attempt)])
      ensures !released ==> dirty == old(dirty) && wrapped == old(wrapped)
    {
      ghost var was := d.claims[..];
      released := d.Release(id, attempt);
      FreedPending(was, d.claims[..], [Delivered(id, attempt)], Ids(rows));
      hide Served, Charged, Distinct, Queued, Accepted, Current;
      if released {
        dirty, wrapped := true, false;
        Resumes();
      } else {
        assert d.claims[..] == was;
        assert forall i | 0 <= i < d.claims.Length :: d.claims[i] == d.claims[..][i] && was[i] == old(d.claims[i]);
      }
    }

    /** Receivers may run at any time, and leave the scan where it is. */
    method Run(events: seq<Event>)
      requires Valid() && d.reading == -1
      modifies d`queue, d`stopped, d.claims
      ensures Valid()
    {
      ghost var was := d.claims[..];
      Meanwhile(events);
      hide Served, Charged, Distinct, Queued;
      if !d.stopped {
        QuietKept(was);
      }
    }

    lemma QuietKept(was: seq<Claim>)
      requires d.Valid() && Kept(was, d.claims[..])
      ensures Passed(was, d.retained, d.config.deliveryRetained, rows, cursor) ==> AllPassed(cursor)
      ensures (forall i | 0 <= i < |was| :: was[i].used) ==> forall i | 0 <= i < d.claims.Length :: d.claims[i].used
      ensures (forall k | 0 <= k < |rows| :: Served(was, d.retained, d.config.deliveryRetained, rows[k])) ==>
        forall k | 0 <= k < |rows| :: Served(d.claims[..], d.retained, d.config.deliveryRetained, rows[k])
    {
      if Passed(was, d.retained, d.config.deliveryRetained, rows, cursor) {
        PassedKept(was, d.claims[..], d.retained, d.retained, d.config.deliveryRetained, rows, cursor);
      }
      assert forall i | 0 <= i < d.claims.Length :: d.claims[..][i] == d.claims[i];
    }
  }
}
