/** The startup validator as it runs: row by row, with running counts and limits. */
module DurableValidator {
  import opened DurableTables

  lemma Counted<T>(a: set<T>, b: set<T>)
    requires a <= b
    ensures |a| <= |b|
  {
    assert |b - a| == |b| - |a|;
  }

  lemma {:induction false} PendingMonotone(t: Tables, a: set<ID>, b: set<ID>)
    requires a <= b
    ensures PendingBytes(t, a) <= PendingBytes(t, b)
    decreases |b|
  {
    if a != {} {
      var id :| id in a;
      PendingWithout(t, a, id);
      PendingWithout(t, b, id);
      PendingMonotone(t, a - {id}, b - {id});
    }
  }

  /** One more row is done. */
  lemma TakeOne<T>(all: set<T>, left: set<T>, x: T)
    requires x in left
    ensures |all - (left - {x})| == |all - left| + if x in all then 1 else 0
  {
    if x in all {
      assert all - (left - {x}) == all - left + {x};
    } else {
      assert all - (left - {x}) == all - left;
    }
  }

  lemma AllTaken<T>(all: set<T>)
    ensures all - {} == all
  {
  }

  lemma ProducerIn(rows: map<nat, Producer>, p: nat)
    requires p in rows
    ensures p in RetiredProducers(rows) <==> rows[p].retired
    ensures p in MarkedProducers(rows) <==> rows[p].cleanup
  {
  }

  /** Counts the producers, or stops at the first row or limit that is wrong. */
  method CountProducers(s: Store) returns (ok: bool, producers: nat, retired: nat, marked: nat)
    ensures ok <==> ProducersOk(s) && |s.tables.producers.Keys| <= s.meta.policy.maxProducers
    ensures ok ==>
      && producers == |s.tables.producers.Keys|
      && retired == |RetiredProducers(s.tables.producers)| && marked == |MarkedProducers(s.tables.producers)|
  {
    hide RetiredProducers, MarkedProducers;
    ok, producers, retired, marked := true, 0, 0, 0;
    var rows, left := s.tables.producers, s.tables.producers.Keys;
    NoneTaken(rows);
    while left != {}
      invariant left <= rows.Keys && producers == |rows.Keys - left|
      invariant retired == |RetiredProducers(rows) - left| && marked == |MarkedProducers(rows) - left|
      invariant forall p | p in rows && p !in left :: ProducerOk(rows[p])
      invariant producers <= s.meta.policy.maxProducers
      decreases |left|
    {
      var p :| p in left;
      var row := rows[p];
      if !ProducerOk(row) {
        return false, producers, retired, marked;
      }
      ProducerIn(rows, p);
      TakeOne(rows.Keys, left, p);
      TakeOne(RetiredProducers(rows), left, p);
      TakeOne(MarkedProducers(rows), left, p);
      producers := producers + 1;
      retired := retired + if row.retired then 1 else 0;
      marked := marked + if row.cleanup then 1 else 0;
      left := left - {p};
      if producers > s.meta.policy.maxProducers {
        Counted(rows.Keys - left, rows.Keys);
        return false, producers, retired, marked;
      }
    }
    AllTaken(rows.Keys);
    AllTaken(RetiredProducers(rows));
    AllTaken(MarkedProducers(rows));
  }

  lemma NoneTaken(rows: map<nat, Producer>)
    ensures |rows.Keys - rows.Keys| == |RetiredProducers(rows) - rows.Keys| == |MarkedProducers(rows) - rows.Keys| == 0
  {
    assert rows.Keys - rows.Keys == {};
    assert RetiredProducers(rows) - rows.Keys == {};
    assert MarkedProducers(rows) - rows.Keys == {};
  }

  ghost predicate Limited(s: Store, receipts: nat, pending: nat, bytes: nat) {
    receipts <= s.meta.policy.maxReceipts && pending <= s.meta.policy.maxPendingItems && bytes <= s.meta.policy.maxPendingPayload
  }

  /** Checks the receipts with their producers, tokens and payloads, or stops at the first failure. */
  method CountReceipts(d: Digester, s: Store) returns (ok: bool, receipts: nat, pending: nat, bytes: nat)
    ensures
      var ids := PendingIds(s.tables.receipts);
      && (ok <==> ReceiptsOk(d, s) && Limited(s, |s.tables.receipts.Keys|, |ids|, PendingBytes(s.tables, ids)))
      && (ok ==> receipts == |s.tables.receipts.Keys| && pending == |ids| && bytes == PendingBytes(s.tables, ids))
  {
    hide PendingBytes, PendingIds, ReceiptOk;
    ok, receipts, pending, bytes := true, 0, 0, 0;
    var t, left := s.tables, s.tables.receipts.Keys;
    ghost var ids := PendingIds(t.receipts);
    NoneCounted(t);
    while left != {}
      invariant left <= t.receipts.Keys && receipts == |t.receipts.Keys - left|
      invariant pending == |ids - left| && bytes == PendingBytes(t, ids - left)
      invariant forall id | id in t.receipts && id !in left :: ReceiptOk(d, s, id)
      invariant Limited(s, receipts, pending, bytes)
      decreases |left|
    {
      var id :| id in left;
      if !ReceiptOk(d, s, id) {
        return false, receipts, pending, bytes;
      }
      TakeOne(t.receipts.Keys, left, id);
      TakeOne(ids, left, id);
      TakeBytes(d, s, left, id);
      receipts := receipts + 1;
      if t.receipts[id].state.Pending? {
        pending, bytes := pending + 1, bytes + |t.payloads[id].body|;
      }
      left := left - {id};
      if receipts > s.meta.policy.maxReceipts || pending > s.meta.policy.maxPendingItems
         || bytes > s.meta.policy.maxPendingPayload {
        Counted(t.receipts.Keys - left, t.receipts.Keys);
        Counted(ids - left, ids);
        PendingMonotone(t, ids - left, ids);
        return false, receipts, pending, bytes;
      }
    }
    AllTaken(t.receipts.Keys);
    AllTaken(ids);
  }

  lemma NoneCounted(t: Tables)
    ensures
      var ids := PendingIds(t.receipts);
      |t.receipts.Keys - t.receipts.Keys| == |ids - t.receipts.Keys| == PendingBytes(t, ids - t.receipts.Keys) == 0
  {
    assert t.receipts.Keys - t.receipts.Keys == {};
    assert PendingIds(t.receipts) - t.receipts.Keys == {};
  }

  lemma TakeBytes(d: Digester, s: Store, left: set<ID>, id: ID)
    requires id in left && id in s.tables.receipts && ReceiptOk(d, s, id)
    ensures
      var t, ids := s.tables, PendingIds(s.tables.receipts);
      && (id in ids <==> t.receipts[id].state.Pending?)
      && (id in ids ==> id in t.payloads)
      && PendingBytes(t, ids - (left - {id})) == PendingBytes(t, ids - left) + if id in ids then |t.payloads[id].body| else 0
  {
    var t, ids := s.tables, PendingIds(s.tables.receipts);
    if id in ids {
      PendingWithout(t, ids - (left - {id}), id);
      assert ids - (left - {id}) - {id} == ids - left;
    } else {
      assert ids - (left - {id}) == ids - left;
    }
  }

  /** The validator accepts exactly the sound stores, given that the orders are unique. */
  method Validate(d: Digester, s: Store) returns (ok: bool)
    requires OrdersUnique(s.tables)
    ensures ok <==> Sound(d, s)
  {
    ValidatorExact(d, s);
    hide Sound, ReceiptsOk, ProducersOk, PendingBytes, PayloadBytes, PendingIds, RetiredProducers, MarkedProducers;
    if !Within(s.meta.counts, s.meta.policy) {
      return false;
    }
    var ok1, producers, retired, marked := CountProducers(s);
    var ok2, receipts, pending, bytes := CountReceipts(d, s);
    ok := ok1 && ok2 && |s.tables.payloads| == pending
          && s.meta.counts == Counts(pending, bytes, receipts, producers, retired, marked);
  }
}
