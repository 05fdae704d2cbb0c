/** What the three mutations of the durable queue mean, one identity at a time. */
module DurableCommands {
  import opened DurableTables

  datatype Error =
    ErrInvalidInput | ErrRetired | ErrConflict | ErrExhausted | ErrCapacity | ErrStaleToken | ErrStorage

  datatype Outcome<T> = Done(value: T) | Failed(error: Error)

  /** An attempt handed out for an identity; only an acquired one can be acknowledged. */
  datatype Claim = Claim(token: Token, acquired: bool)

  datatype Command = Submit(entries: seq<Entry>) | Ack(tokens: seq<Token>) | RetireThrough(id: ID)

  // ---------------------------------------------------------------------------------------
  // Submit

  function InsertEntry(d: Digester, s: Store, e: Entry): Store {
    var t, m, c := s.tables, s.meta, s.meta.counts;
    var known := e.id.producer in t.producers;
    Store(
      Tables(
        if known then t.producers else t.producers[e.id.producer := Producer(false, 0, false)],
        t.receipts[e.id := Receipt(d(e.codec, e.body), Pending, m.lastOrder + 1)],
        t.payloads[e.id := Payload(e.codec, e.body)]),
      m.(lastOrder := m.lastOrder + 1,
         counts := c.(pendingItems := c.pendingItems + 1,
                      pendingPayload := c.pendingPayload + |e.body|,
                      receipts := c.receipts + 1,
                      producers := if known then c.producers else c.producers + 1)))
  }

  /** A first submission is stored, an identical retry changes nothing. */
  function AcceptOne(d: Digester, s: Store, e: Entry): Outcome<Store> {
    if Lookup(s.tables, e.id) == Retired then Failed(ErrRetired)
    else if e.id in s.tables.receipts then
      if s.tables.receipts[e.id].digest == d(e.codec, e.body) then Done(s) else Failed(ErrConflict)
    else if s.meta.lastOrder == MAX_IDENTITY then Failed(ErrExhausted)
    else Done(InsertEntry(d, s, e))
  }

  function AcceptAll(d: Digester, s: Store, entries: seq<Entry>): Outcome<Store>
    decreases |entries|
  {
    if entries == [] then Done(s)
    else
      var before := AcceptAll(d, s, entries[..|entries| - 1]);
      if before.Failed? then before else AcceptOne(d, before.value, entries[|entries| - 1])
  }

  function SubmitAll(d: Digester, s: Store, entries: seq<Entry>): Outcome<Store> {
    var all := AcceptAll(d, s, entries);
    if all.Failed? then all
    else if Within(all.value.meta.counts, s.meta.policy) then all
    else Failed(ErrCapacity)
  }

  // ---------------------------------------------------------------------------------------
  // Acknowledge

  predicate ThisSession(m: Metadata, token: Token) {
    token.uuid == m.uuid && token.epoch == m.epoch && token.attempt != 0
  }

  predicate CurrentClaim(claims: map<ID, Claim>, token: Token) {
    token.id in claims && claims[token.id] == Claim(token, true)
  }

  function Complete(s: Store, token: Token): Store
    requires token.id in s.tables.receipts && token.id in s.tables.payloads
    requires s.meta.counts.pendingItems > 0
    requires |s.tables.payloads[token.id].body| <= s.meta.counts.pendingPayload
  {
    var t, c := s.tables, s.meta.counts;
    Store(
      t.(receipts := t.receipts[token.id := t.receipts[token.id].(state := Acked(token))],
         payloads := t.payloads - {token.id}),
      s.meta.(counts := c.(pendingItems := c.pendingItems - 1,
                           pendingPayload := c.pendingPayload - |t.payloads[token.id].body|)))
  }

  /** A current attempt completes its identity; a repeat of the completing token changes nothing;
      every other token is stale. A pending receipt without its payload is a storage fault. */
  function AckOne(s: Store, claims: map<ID, Claim>, token: Token): Outcome<Store> {
    if !ThisSession(s.meta, token) || token.id !in s.tables.receipts then Failed(ErrStaleToken)
    else if s.tables.receipts[token.id].state.Acked? then
      if s.tables.receipts[token.id].state.token == token then Done(s) else Failed(ErrStaleToken)
    else if !CurrentClaim(claims, token) then Failed(ErrStaleToken)
    else if token.id !in s.tables.payloads || s.meta.counts.pendingItems == 0
            || |s.tables.payloads[token.id].body| > s.meta.counts.pendingPayload then Failed(ErrStorage)
    else Done(Complete(s, token))
  }

  function AckAll(s: Store, claims: map<ID, Claim>, tokens: seq<Token>): Outcome<Store>
    decreases |tokens|
  {
    if tokens == [] then Done(s)
    else
      var before := AckAll(s, claims, tokens[..|tokens| - 1]);
      if before.Failed? then before else AckOne(before.value, claims, tokens[|tokens| - 1])
  }

  // ---------------------------------------------------------------------------------------
  // Retire

  ghost predicate PendingThrough(t: Tables, id: ID) {
    exists r :: r in t.receipts && t.receipts[r].state.Pending? && r.producer == id.producer && r.sequence <= id.sequence
  }

  function Barrier(s: Store, id: ID): Store {
    var t, c := s.tables, s.meta.counts;
    var known := id.producer in t.producers;
    var was := if known then t.producers[id.producer] else Producer(false, 0, false);
    Store(
      t.(producers := t.producers[id.producer := Producer(true, id.sequence, true)]),
      s.meta.(counts := c.(
        producers := if known then c.producers else c.producers + 1,
        retiredProducers := if was.retired then c.retiredProducers else c.retiredProducers + 1,
        cleanupMarkers := if was.cleanup then c.cleanupMarkers else c.cleanupMarkers + 1)))
  }

  /** The floor only rises, and never over pending work. */
  ghost function RetireOne(s: Store, id: ID): Outcome<Store> {
    if AtFloor(s.tables, id) then Done(s)
    else if id.producer !in s.tables.producers && s.meta.counts.producers == s.meta.policy.maxProducers then
      Failed(ErrCapacity)
    else if PendingThrough(s.tables, id) then Failed(ErrConflict)
    else Done(Barrier(s, id))
  }

  ghost function Execute(d: Digester, s: Store, claims: map<ID, Claim>, c: Command): Outcome<Store> {
    match c
    case Submit(entries) => SubmitAll(d, s, entries)
    case Ack(tokens) => AckAll(s, claims, tokens)
    case RetireThrough(id) => RetireOne(s, id)
  }

  /** What the callers' side has checked before a command is handed over. */
  predicate FitEntry(p: Policy, e: Entry) {
    |e.codec| <= p.maxCodec && |e.body| <= p.maxPayload
  }

  predicate Distinct<T(==)>(items: seq<T>) {
    forall i, j | 0 <= i < j < |items| :: items[i] != items[j]
  }

  predicate Legal(p: Policy, c: Command) {
    match c
    case Submit(entries) =>
      && (forall i | 0 <= i < |entries| :: FitEntry(p, entries[i]))
      && (forall i, j | 0 <= i < j < |entries| :: entries[i].id != entries[j].id)
    case Ack(tokens) => Distinct(tokens)
    case RetireThrough(_) => true
  }

  // ---------------------------------------------------------------------------------------
  // Cleanup

  /** Acknowledged receipts at or below the floor of producer `p`. */
  function Removable(t: Tables, p: nat): set<ID> {
    set id | id in t.receipts && id.producer == p && AtFloor(t, id) && t.receipts[id].state.Acked?
  }

  /** One turn takes the first rows of the first marked producer, in key order, up to the limit. */
  ghost predicate Chosen(t: Tables, p: nat, limit: nat, rows: set<ID>) {
    && p in MarkedProducers(t.producers) && (forall q | q in MarkedProducers(t.producers) :: p <= q)
    && rows <= Removable(t, p) && |rows| <= limit
    && (|rows| < limit ==> rows == Removable(t, p))
    && (forall a, b | a in rows && b in Removable(t, p) - rows :: a.sequence < b.sequence)
  }

  ghost function Clean(s: Store, p: nat, rows: set<ID>): Store
    requires p in s.tables.producers && rows <= s.tables.receipts.Keys
    requires |rows| <= s.meta.counts.receipts && s.meta.counts.cleanupMarkers > 0
  {
    var t, c := s.tables, s.meta.counts;
    var finished := rows == Removable(t, p);
    Store(
      t.(receipts := t.receipts - rows,
         producers := if finished then t.producers[p := t.producers[p].(cleanup := false)] else t.producers),
      s.meta.(counts := c.(
        receipts := c.receipts - |rows|,
        cleanupMarkers := if finished then c.cleanupMarkers - 1 else c.cleanupMarkers)))
  }

  // ---------------------------------------------------------------------------------------
  // Every mutation keeps the store sound

  /** Sound but for the limits, which a submission checks once at its end. */
  ghost predicate Consistent(d: Digester, s: Store) {
    && ProducersOk(s) && ReceiptsOk(d, s) && OrdersUnique(s.tables)
    && s.tables.payloads.Keys == PendingIds(s.tables.receipts)
    && s.meta.counts == Recount(s.tables)
  }

  lemma InsertKeeps(d: Digester, s: Store, e: Entry, s': Store)
    requires Consistent(d, s) && e.id !in s.tables.receipts && !AtFloor(s.tables, e.id)
    requires FitEntry(s.meta.policy, e) && s' == InsertEntry(d, s, e)
    ensures Consistent(d, s')
  {
    InsertReceipts(d, s, e, s');
    InsertOrders(d, s, e, s');
    InsertCounts(d, s, e, s');
    hide ReceiptsOk, OrdersUnique, Recount, PendingIds;
  }

  lemma InsertReceipts(d: Digester, s: Store, e: Entry, s': Store)
    requires Consistent(d, s) && e.id !in s.tables.receipts && !AtFloor(s.tables, e.id)
    requires FitEntry(s.meta.policy, e) && s' == InsertEntry(d, s, e)
    ensures ReceiptsOk(d, s')
  {
    hide Recount, OrdersUnique;
    forall id | id in s'.tables.receipts ensures ReceiptOk(d, s', id) {
      assert AtFloor(s'.tables, id) <==> AtFloor(s.tables, id);
      if id != e.id { assert ReceiptOk(d, s, id); }
    }
  }

  lemma InsertOrders(d: Digester, s: Store, e: Entry, s': Store)
    requires Consistent(d, s) && e.id !in s.tables.receipts && s' == InsertEntry(d, s, e)
    ensures OrdersUnique(s'.tables)
  {
    hide Recount, ProducersOk;
    forall id | id in s.tables.receipts ensures s.tables.receipts[id].order <= s.meta.lastOrder {
      assert ReceiptOk(d, s, id);
    }
  }

  lemma InsertCounts(d: Digester, s: Store, e: Entry, s': Store)
    requires Consistent(d, s) && e.id !in s.tables.receipts && s' == InsertEntry(d, s, e)
    ensures s'.tables.payloads.Keys == PendingIds(s'.tables.receipts) && s'.meta.counts == Recount(s'.tables)
  {
    hide ReceiptsOk, ProducersOk, OrdersUnique, PayloadBytes;
    assert e.id !in s.tables.payloads;
    BytesWith(s.tables.payloads, e.id, Payload(e.codec, e.body));
    hide RetiredProducers, MarkedProducers;
    if e.id.producer !in s.tables.producers {
      InsertProducers(s.tables.producers, e.id.producer);
    }
    Grown(PendingIds(s.tables.receipts), PendingIds(s'.tables.receipts), e.id);
    hide PendingIds;
    assert |s'.tables.receipts| == |s.tables.receipts| + 1;
  }

  lemma InsertProducers(producers: map<nat, Producer>, p: nat)
    requires p !in producers
    ensures RetiredProducers(producers[p := Producer(false, 0, false)]) == RetiredProducers(producers)
    ensures MarkedProducers(producers[p := Producer(false, 0, false)]) == MarkedProducers(producers)
  {
  }

  predicate SameSession(s: Store, s': Store) {
    s'.meta.policy == s.meta.policy && s'.meta.epoch == s.meta.epoch && s'.meta.uuid == s.meta.uuid
  }

  lemma {:induction false} AcceptKeeps(d: Digester, s: Store, entries: seq<Entry>)
    requires Consistent(d, s) && (forall i | 0 <= i < |entries| :: FitEntry(s.meta.policy, entries[i]))
    ensures AcceptAll(d, s, entries).Done? ==>
      Consistent(d, AcceptAll(d, s, entries).value) && SameSession(s, AcceptAll(d, s, entries).value)
    decreases |entries|
  {
    hide Consistent, FitEntry;
    if entries != [] {
      var before, e := entries[..|entries| - 1], entries[|entries| - 1];
      AcceptKeeps(d, s, before);
      assert FitEntry(s.meta.policy, e);
      if AcceptAll(d, s, before).Done? {
        var s1 := AcceptAll(d, s, before).value;
        if e.id !in s1.tables.receipts && AcceptOne(d, s1, e).Done? {
          InsertKeeps(d, s1, e, AcceptOne(d, s1, e).value);
        }
      }
    }
  }

  lemma PendingBacked(d: Digester, s: Store, id: ID)
    requires Consistent(d, s) && id in PendingIds(s.tables.receipts)
    ensures id in s.tables.payloads && s.meta.counts.pendingItems > 0
    ensures |s.tables.payloads[id].body| <= s.meta.counts.pendingPayload
  {
    BytesWithout(s.tables.payloads, id);
  }

  lemma CompleteKeeps(d: Digester, s: Store, token: Token, s': Store)
    requires Sound(d, s) && token.id in PendingIds(s.tables.receipts) && TokenOk(s.meta, token.id, token)
    requires token.id in s.tables.payloads && s.meta.counts.pendingItems > 0
    requires |s.tables.payloads[token.id].body| <= s.meta.counts.pendingPayload
    requires s' == Complete(s, token)
    ensures Sound(d, s')
  {
    forall id | id in s'.tables.receipts ensures ReceiptOk(d, s', id) {
      assert AtFloor(s'.tables, id) <==> AtFloor(s.tables, id);
      assert ReceiptOk(d, s, id);
    }
    CompleteCounts(d, s, token, s');
  }

  lemma CompleteCounts(d: Digester, s: Store, token: Token, s': Store)
    requires Sound(d, s) && token.id in PendingIds(s.tables.receipts)
    requires token.id in s.tables.payloads && s.meta.counts.pendingItems > 0
    requires |s.tables.payloads[token.id].body| <= s.meta.counts.pendingPayload
    requires s' == Complete(s, token)
    ensures s'.tables.payloads.Keys == PendingIds(s'.tables.receipts) && s'.meta.counts == Recount(s'.tables)
    ensures Within(s'.meta.counts, s'.meta.policy)
  {
    hide ReceiptsOk, ProducersOk, OrdersUnique;
    assert PendingIds(s'.tables.receipts) == PendingIds(s.tables.receipts) - {token.id};
    assert s'.tables.receipts.Keys == s.tables.receipts.Keys;
    BytesWithout(s.tables.payloads, token.id);
  }

  /** Acknowledging keeps the store sound and never finds it broken. */
  lemma {:induction false} AckKeeps(d: Digester, s: Store, claims: map<ID, Claim>, tokens: seq<Token>)
    requires Sound(d, s) && s.meta.epoch > 0
    ensures AckAll(s, claims, tokens).Done? ==>
      Sound(d, AckAll(s, claims, tokens).value) && OnlyAcked(s, AckAll(s, claims, tokens).value)
    ensures AckAll(s, claims, tokens) != Failed(ErrStorage)
    decreases |tokens|
  {
    hide Sound, AckOne;
    if tokens != [] {
      var before := tokens[..|tokens| - 1];
      AckKeeps(d, s, claims, before);
      if AckAll(s, claims, before).Done? {
        AckOneKeeps(d, AckAll(s, claims, before).value, claims, tokens[|tokens| - 1]);
      }
    }
  }

  predicate OnlyAcked(s: Store, s': Store) {
    && s'.meta == s.meta.(counts := s'.meta.counts)
    && s'.tables.producers == s.tables.producers && s'.tables.receipts.Keys == s.tables.receipts.Keys
  }

  lemma AckOneKeeps(d: Digester, s: Store, claims: map<ID, Claim>, token: Token)
    requires Sound(d, s) && s.meta.epoch > 0
    ensures AckOne(s, claims, token).Done? ==>
      Sound(d, AckOne(s, claims, token).value) && OnlyAcked(s, AckOne(s, claims, token).value)
    ensures AckOne(s, claims, token) != Failed(ErrStorage)
  {
    assert Consistent(d, s);
    if ThisSession(s.meta, token) && token.id in s.tables.receipts && s.tables.receipts[token.id].state.Pending?
      && CurrentClaim(claims, token)
    {
      PendingBacked(d, s, token.id);
      var s' := Complete(s, token);
      assert TokenOk(s.meta, token.id, token);
      hide Sound;
      CompleteKeeps(d, s, token, s');
      assert s'.tables.receipts.Keys == s.tables.receipts.Keys;
    }
  }

  lemma BarrierKeeps(d: Digester, s: Store, id: ID, s': Store)
    requires Sound(d, s) && RetireOne(s, id) == Done(s') && !AtFloor(s.tables, id)
    ensures Sound(d, s')
  {
    forall r | r in s'.tables.receipts ensures ReceiptOk(d, s', r) {
      assert ReceiptOk(d, s, r);
      if r.producer != id.producer {
        assert AtFloor(s'.tables, r) <==> AtFloor(s.tables, r);
      }
    }
    BarrierCounts(d, s, id, s');
  }

  lemma BarrierCounts(d: Digester, s: Store, id: ID, s': Store)
    requires Sound(d, s) && s' == Barrier(s, id)
    requires id.producer !in s.tables.producers ==> s.meta.counts.producers != s.meta.policy.maxProducers
    ensures s'.tables.payloads.Keys == PendingIds(s'.tables.receipts) && s'.meta.counts == Recount(s'.tables)
    ensures Within(s'.meta.counts, s'.meta.policy) && ProducersOk(s')
  {
    hide ReceiptsOk, OrdersUnique, PayloadBytes;
    BarrierProducers(s.tables.producers, id.producer, id.sequence, s'.tables.producers);
  }

  lemma BarrierProducers(producers: map<nat, Producer>, p: nat, floor: nat, after: map<nat, Producer>)
    requires after == producers[p := Producer(true, floor, true)]
    ensures |RetiredProducers(after)| == |RetiredProducers(producers)| + if p in RetiredProducers(producers) then 0 else 1
    ensures |MarkedProducers(after)| == |MarkedProducers(producers)| + if p in MarkedProducers(producers) then 0 else 1
    ensures |after| == |producers| + if p in producers then 0 else 1
  {
    Grown(RetiredProducers(producers), RetiredProducers(after), p);
    Grown(MarkedProducers(producers), MarkedProducers(after), p);
    Grown(producers.Keys, after.Keys, p);
  }

  lemma Grown<T>(a: set<T>, b: set<T>, x: T)
    requires forall y :: y in b <==> y in a || y == x
    ensures |b| == |a| + if x in a then 0 else 1
  {
    assert b == a + {x};
    if x in a {
      assert b == a;
    }
  }

  lemma Shrunk<T>(a: set<T>, b: set<T>, c: set<T>)
    requires c <= a && forall y :: y in b <==> y in a && y !in c
    ensures |b| == |a| - |c|
  {
    assert b == a - c;
    assert |a - c| == |a| - |c|;
  }

  /** Every command that succeeds keeps the store sound. */
  lemma ExecuteKeeps(d: Digester, s: Store, claims: map<ID, Claim>, c: Command, s': Store)
    requires Sound(d, s) && s.meta.epoch > 0 && Legal(s.meta.policy, c) && Execute(d, s, claims, c) == Done(s')
    ensures Sound(d, s')
    ensures SameSession(s, s')
  {
    assert Consistent(d, s);
    match c
    case Submit(entries) => AcceptKeeps(d, s, entries);
    case Ack(tokens) => AckKeeps(d, s, claims, tokens);
    case RetireThrough(id) => if !AtFloor(s.tables, id) { BarrierKeeps(d, s, id, s'); }
  }

  lemma CleanDefined(d: Digester, s: Store, p: nat, rows: set<ID>)
    requires Sound(d, s) && p in MarkedProducers(s.tables.producers) && rows <= Removable(s.tables, p)
    ensures p in s.tables.producers && rows <= s.tables.receipts.Keys
    ensures |rows| <= s.meta.counts.receipts && s.meta.counts.cleanupMarkers > 0
  {
    assert rows <= s.tables.receipts.Keys;
    Fits(rows, s.tables.receipts.Keys);
  }

  lemma Fits<T>(a: set<T>, b: set<T>)
    requires a <= b
    ensures |a| <= |b|
  {
    assert |b - a| == |b| - |a|;
  }

  lemma CleanKeeps(d: Digester, s: Store, p: nat, rows: set<ID>, s': Store)
    requires Sound(d, s) && p in MarkedProducers(s.tables.producers) && rows <= Removable(s.tables, p)
    requires |rows| <= s.meta.counts.receipts && s.meta.counts.cleanupMarkers > 0
    requires s' == Clean(s, p, rows)
    ensures Sound(d, s')
  {
    forall r | r in s'.tables.receipts ensures ReceiptOk(d, s', r) {
      assert ReceiptOk(d, s, r);
      assert AtFloor(s'.tables, r) <==> AtFloor(s.tables, r);
      if r.producer == p && AtFloor(s.tables, r) {
        assert r in Removable(s.tables, p);
      }
    }
    CleanCounts(d, s, p, rows, s');
  }

  lemma CleanCounts(d: Digester, s: Store, p: nat, rows: set<ID>, s': Store)
    requires Sound(d, s) && p in MarkedProducers(s.tables.producers) && rows <= Removable(s.tables, p)
    requires |rows| <= s.meta.counts.receipts && s.meta.counts.cleanupMarkers > 0
    requires s' == Clean(s, p, rows)
    ensures s'.tables.payloads.Keys == PendingIds(s'.tables.receipts) && s'.meta.counts == Recount(s'.tables)
    ensures Within(s'.meta.counts, s'.meta.policy) && ProducersOk(s')
  {
    hide ReceiptsOk, OrdersUnique, PayloadBytes;
    CleanReceipts(s.tables, p, rows);
    if rows == Removable(s.tables, p) {
      CleanProducers(s.tables.producers, p);
    }
    hide Removable, RetiredProducers, MarkedProducers;
  }

  lemma CleanReceipts(t: Tables, p: nat, rows: set<ID>)
    requires rows <= Removable(t, p)
    ensures PendingIds(t.receipts - rows) == PendingIds(t.receipts)
    ensures |t.receipts - rows| == |t.receipts| - |rows|
  {
    Shrunk(t.receipts.Keys, (t.receipts - rows).Keys, rows);
  }

  lemma CleanProducers(producers: map<nat, Producer>, p: nat)
    requires p in MarkedProducers(producers)
    ensures
      var after := producers[p := producers[p].(cleanup := false)];
      && RetiredProducers(after) == RetiredProducers(producers) && |after| == |producers|
      && |MarkedProducers(after)| == |MarkedProducers(producers)| - 1
  {
    var after := producers[p := producers[p].(cleanup := false)];
    assert after.Keys == producers.Keys;
    Shrunk(MarkedProducers(producers), MarkedProducers(after), {p});
  }

  /** Every cleanup turn removes a receipt or a marker, so cleanup ends. */
  lemma CleanProgress(d: Digester, s: Store, p: nat, limit: nat, rows: set<ID>, s': Store)
    requires Sound(d, s) && limit > 0 && Chosen(s.tables, p, limit, rows)
    requires p in s.tables.producers && rows <= s.tables.receipts.Keys
    requires |rows| <= s.meta.counts.receipts && s.meta.counts.cleanupMarkers > 0
    requires s' == Clean(s, p, rows)
    ensures s'.meta.counts.receipts + s'.meta.counts.cleanupMarkers < s.meta.counts.receipts + s.meta.counts.cleanupMarkers
  {
  }
}
