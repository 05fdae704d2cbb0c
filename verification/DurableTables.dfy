/** The durable store: its tables, its metadata, and what makes a stored state sound.

    The SQL tables are maps from their keys. A producer is the number its sixteen key bytes spell, so
    the order of keys is the order of numbers (see module DurableEncoding). The entry digest is a
    parameter: any function of codec and payload. */
module DurableTables {

  const MAX_IDENTITY := 0xFFFF_FFFF_FFFF_FFFF

  type Digester = (string, string) -> nat

  datatype ID = ID(producer: nat, sequence: nat)

  datatype Token = Token(uuid: nat, epoch: nat, id: ID, attempt: nat)

  datatype State = Pending | Acked(token: Token)

  datatype Receipt = Receipt(digest: nat, state: State, order: nat)

  datatype Producer = Producer(retired: bool, floor: nat, cleanup: bool)

  datatype Payload = Payload(codec: string, body: string)

  datatype Entry = Entry(id: ID, codec: string, body: string)

  datatype Tables = Tables(
    producers: map<nat, Producer>, receipts: map<ID, Receipt>, payloads: map<ID, Payload>)

  datatype Counts = Counts(
    pendingItems: nat,
    pendingPayload: nat,
    receipts: nat,
    producers: nat,
    retiredProducers: nat,
    cleanupMarkers: nat)

  datatype Policy = Policy(
    maxPayload: nat,
    maxCodec: nat,
    maxPendingItems: nat,
    maxPendingPayload: nat,
    maxReceipts: nat,
    maxProducers: nat)

  datatype Metadata = Metadata(uuid: nat, policy: Policy, epoch: nat, lastOrder: nat, counts: Counts)

  datatype Store = Store(tables: Tables, meta: Metadata)

  // ---------------------------------------------------------------------------------------
  // Status

  datatype Kind = Absent | Waiting | Acknowledged | Retired

  predicate AtFloor(t: Tables, id: ID) {
    id.producer in t.producers && t.producers[id.producer].retired && id.sequence <= t.producers[id.producer].floor
  }

  /** The status of an identity: the floor of its producer wins over its receipt. */
  function Lookup(t: Tables, id: ID): Kind {
    if id.producer !in t.producers then Absent
    else if AtFloor(t, id) then Retired
    else if id !in t.receipts then Absent
    else if t.receipts[id].state.Pending? then Waiting
    else Acknowledged
  }

  function Rank(k: Kind): nat {
    match k
    case Absent => 0
    case Waiting => 1
    case Acknowledged => 2
    case Retired => 3
  }

  // ---------------------------------------------------------------------------------------
  // The recount

  ghost function PendingIds(receipts: map<ID, Receipt>): set<ID> {
    set id | id in receipts && receipts[id].state.Pending?
  }

  ghost function RetiredProducers(producers: map<nat, Producer>): set<nat> {
    set p | p in producers && producers[p].retired
  }

  function MarkedProducers(producers: map<nat, Producer>): set<nat> {
    set p | p in producers && producers[p].cleanup
  }

  ghost function PayloadBytes(payloads: map<ID, Payload>): nat
    decreases |payloads|
  {
    if payloads == map[] then 0
    else
      var id :| id in payloads;
      |payloads[id].body| + PayloadBytes(payloads - {id})
  }

  ghost function Recount(t: Tables): Counts {
    Counts(|PendingIds(t.receipts)|, PayloadBytes(t.payloads), |t.receipts|, |t.producers|,
           |RetiredProducers(t.producers)|, |MarkedProducers(t.producers)|)
  }

  // ---------------------------------------------------------------------------------------
  // Soundness

  predicate Within(c: Counts, p: Policy) {
    && c.pendingItems <= p.maxPendingItems && c.pendingPayload <= p.maxPendingPayload
    && c.receipts <= p.maxReceipts && c.producers <= p.maxProducers
  }

  predicate ProducerOk(row: Producer) {
    !row.retired ==> row.floor == 0 && !row.cleanup
  }

  predicate TokenOk(m: Metadata, id: ID, token: Token) {
    token.uuid == m.uuid && token.id == id && 0 < token.epoch <= m.epoch && token.attempt > 0
  }

  predicate PayloadOk(d: Digester, m: Metadata, receipt: Receipt, payload: Payload) {
    && |payload.codec| <= m.policy.maxCodec && |payload.body| <= m.policy.maxPayload
    && d(payload.codec, payload.body) == receipt.digest
  }

  /** A receipt agrees with its producer, its token and its payload. */
  predicate ReceiptOk(d: Digester, s: Store, id: ID)
    requires id in s.tables.receipts
  {
    var t, r := s.tables, s.tables.receipts[id];
    && 0 < r.order <= s.meta.lastOrder
    && id.producer in t.producers
    && (AtFloor(t, id) ==> !r.state.Pending? && t.producers[id.producer].cleanup)
    && (r.state.Acked? ==> TokenOk(s.meta, id, r.state.token))
    && (r.state.Pending? ==> id in t.payloads && PayloadOk(d, s.meta, r, t.payloads[id]))
  }

  predicate ProducersOk(s: Store) {
    forall p | p in s.tables.producers :: ProducerOk(s.tables.producers[p])
  }

  predicate ReceiptsOk(d: Digester, s: Store) {
    forall id | id in s.tables.receipts :: ReceiptOk(d, s, id)
  }

  ghost predicate OrdersUnique(t: Tables) {
    forall a, b | a in t.receipts && b in t.receipts && a != b :: t.receipts[a].order != t.receipts[b].order
  }

  /** Every relation the store is meant to keep. */
  ghost predicate Sound(d: Digester, s: Store) {
    && ProducersOk(s) && ReceiptsOk(d, s) && OrdersUnique(s.tables)
    && s.tables.payloads.Keys == PendingIds(s.tables.receipts)
    && s.meta.counts == Recount(s.tables) && Within(s.meta.counts, s.meta.policy)
  }

  /** What the startup validator checks: rows one by one, then counts. That payloads belong to
      pending receipts is checked only by number; the orders are unique by the table's own index. */
  ghost predicate Validated(d: Digester, s: Store) {
    && ProducersOk(s) && ReceiptsOk(d, s)
    && |s.tables.payloads| == |PendingIds(s.tables.receipts)|
    && PendingBytes(s.tables, PendingIds(s.tables.receipts)) == s.meta.counts.pendingPayload
    && s.meta.counts == Recount(s.tables).(pendingPayload := s.meta.counts.pendingPayload)
    && Within(s.meta.counts, s.meta.policy)
  }

  /** The payload bytes of some receipts, a receipt without a payload counting nothing. */
  ghost function PendingBytes(t: Tables, ids: set<ID>): nat
    decreases |ids|
  {
    if ids == {} then 0
    else
      var id :| id in ids;
      (if id in t.payloads then |t.payloads[id].body| else 0) + PendingBytes(t, ids - {id})
  }

  // ---------------------------------------------------------------------------------------
  // Sums over a table do not depend on the order they are taken in

  lemma {:induction false} BytesWithout(payloads: map<ID, Payload>, id: ID)
    requires id in payloads
    ensures PayloadBytes(payloads) == |payloads[id].body| + PayloadBytes(payloads - {id})
    decreases |payloads|
  {
    var first :| first in payloads && PayloadBytes(payloads) == |payloads[first].body| + PayloadBytes(payloads - {first});
    if first != id {
      BytesWithout(payloads - {first}, id);
      BytesWithout(payloads - {id}, first);
      assert payloads - {first} - {id} == payloads - {id} - {first};
    }
  }

  lemma BytesWith(payloads: map<ID, Payload>, id: ID, payload: Payload)
    requires id !in payloads
    ensures PayloadBytes(payloads[id := payload]) == PayloadBytes(payloads) + |payload.body|
  {
    BytesWithout(payloads[id := payload], id);
    assert payloads[id := payload] - {id} == payloads;
  }

  lemma {:induction false} PendingWithout(t: Tables, ids: set<ID>, id: ID)
    requires id in ids
    ensures PendingBytes(t, ids) == (if id in t.payloads then |t.payloads[id].body| else 0) + PendingBytes(t, ids - {id})
    decreases |ids|
  {
    var first :| first in ids && PendingBytes(t, ids)
      == (if first in t.payloads then |t.payloads[first].body| else 0) + PendingBytes(t, ids - {first});
    if first != id {
      PendingWithout(t, ids - {first}, id);
      PendingWithout(t, ids - {id}, first);
      assert ids - {first} - {id} == ids - {id} - {first};
    }
  }

  lemma {:induction false} BytesArePending(t: Tables, payloads: map<ID, Payload>)
    requires forall id | id in payloads :: id in t.payloads && payloads[id] == t.payloads[id]
    ensures PendingBytes(t, payloads.Keys) == PayloadBytes(payloads)
    decreases |payloads|
  {
    if payloads != map[] {
      var id :| id in payloads;
      BytesArePending(t, payloads - {id});
      PendingWithout(t, payloads.Keys, id);
      BytesWithout(payloads, id);
      assert (payloads - {id}).Keys == payloads.Keys - {id};
    }
  }

  /** The validator accepts exactly the sound states: counting the payloads is enough to know that
      none is left over. */
  lemma ValidatorExact(d: Digester, s: Store)
    requires OrdersUnique(s.tables)
    ensures Validated(d, s) <==> Sound(d, s)
  {
    var t := s.tables;
    if ReceiptsOk(d, s) && |t.payloads| == |PendingIds(t.receipts)| {
      forall id | id in PendingIds(t.receipts) ensures id in t.payloads {
        assert ReceiptOk(d, s, id);
      }
      SubsetOfSameSize(PendingIds(t.receipts), t.payloads.Keys);
      BytesArePending(t, t.payloads);
    }
    if Sound(d, s) {
      BytesArePending(t, t.payloads);
    }
  }

  lemma SubsetOfSameSize<T>(a: set<T>, b: set<T>)
    requires a <= b && |a| == |b|
    ensures a == b
  {
    assert |b - a| == |b| - |a|;
  }
}
