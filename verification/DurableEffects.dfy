/** What the commands of the durable queue do to every identity, stated against the store they start from. */
module DurableEffects {
  import opened DurableTables
  import opened DurableCommands
  import opened DurableExecution

  // ---------------------------------------------------------------------------------------
  // Submit

  predicate IsNew(t: Tables, e: Entry) {
    e.id !in t.receipts
  }

  function NewCount(t: Tables, entries: seq<Entry>): nat {
    if entries == [] then 0
    else NewCount(t, entries[..|entries| - 1]) + if IsNew(t, entries[|entries| - 1]) then 1 else 0
  }

  function NewBytes(t: Tables, entries: seq<Entry>): nat {
    if entries == [] then 0
    else
      NewBytes(t, entries[..|entries| - 1])
      + if IsNew(t, entries[|entries| - 1]) then |entries[|entries| - 1].body| else 0
  }

  function NewProducers(t: Tables, entries: seq<Entry>): set<nat> {
    set i | 0 <= i < |entries| && IsNew(t, entries[i]) && entries[i].id.producer !in t.producers :: entries[i].id.producer
  }

  /** The counts once every new entry of the batch is stored. */
  function CountsWith(s: Store, entries: seq<Entry>): Counts {
    var c := s.meta.counts;
    Counts(c.pendingItems + NewCount(s.tables, entries), c.pendingPayload + NewBytes(s.tables, entries),
           c.receipts + NewCount(s.tables, entries), c.producers + |NewProducers(s.tables, entries)|,
           c.retiredProducers, c.cleanupMarkers)
  }

  datatype Fault = None | Fault(error: Error)

  /** What is wrong with entry `i` of a batch: its identity is retired, it was stored with another payload, or no
      order is left for it. */
  function FaultAt(d: Digester, s: Store, entries: seq<Entry>, i: nat): Fault
    requires i < |entries|
  {
    var e := entries[i];
    if AtFloor(s.tables, e.id) then Fault(ErrRetired)
    else if !IsNew(s.tables, e) then
      if s.tables.receipts[e.id].digest == d(e.codec, e.body) then None else Fault(ErrConflict)
    else if s.meta.lastOrder + NewCount(s.tables, entries[..i]) == MAX_IDENTITY then Fault(ErrExhausted)
    else None
  }

  ghost predicate FaultFree(d: Digester, s: Store, entries: seq<Entry>, n: nat)
    requires n <= |entries|
  {
    forall i | 0 <= i < n :: FaultAt(d, s, entries, i) == None
  }

  /** Entry `i` is stored as submitted if it is new, in batch order, and left as it was if it is a retry. */
  ghost predicate Kept(d: Digester, s: Store, entries: seq<Entry>, s': Store, i: nat)
    requires i < |entries|
  {
    var e := entries[i];
    && e.id in s'.tables.receipts
    && (IsNew(s.tables, e) ==>
          && s'.tables.receipts[e.id]
             == Receipt(d(e.codec, e.body), Pending, s.meta.lastOrder + NewCount(s.tables, entries[..i]) + 1)
          && e.id in s'.tables.payloads && s'.tables.payloads[e.id] == Payload(e.codec, e.body)
          && Lookup(s'.tables, e.id) == Waiting)
    && (!IsNew(s.tables, e) ==> SameAt(s, s', e.id))
  }

  predicate SameAt(s: Store, s': Store, id: ID) {
    && (id in s.tables.receipts <==> id in s'.tables.receipts)
    && (id in s.tables.receipts ==> s'.tables.receipts[id] == s.tables.receipts[id])
    && (id in s.tables.payloads <==> id in s'.tables.payloads)
    && (id in s.tables.payloads ==> s'.tables.payloads[id] == s.tables.payloads[id])
    && Lookup(s'.tables, id) == Lookup(s.tables, id)
  }

  ghost predicate Mentioned(entries: seq<Entry>, id: ID) {
    exists i :: 0 <= i < |entries| && entries[i].id == id
  }

  /** Every receipt has the row of its producer. */
  ghost predicate Homed(t: Tables) {
    forall id | id in t.receipts :: id.producer in t.producers
  }

  ghost predicate RowsStored(d: Digester, s: Store, entries: seq<Entry>, s': Store) {
    && (forall i | 0 <= i < |entries| :: Kept(d, s, entries, s', i))
    && (forall id | !Mentioned(entries, id) :: SameAt(s, s', id))
  }

  ghost predicate MetaStored(s: Store, entries: seq<Entry>, s': Store) {
    && s'.tables.producers.Keys == s.tables.producers.Keys + NewProducers(s.tables, entries)
    && s'.meta == s.meta.(lastOrder := s.meta.lastOrder + NewCount(s.tables, entries), counts := CountsWith(s, entries))
  }

  /** All that a stored batch does. */
  ghost predicate Stored(d: Digester, s: Store, entries: seq<Entry>, s': Store) {
    && RowsStored(d, s, entries, s') && MetaStored(s, entries, s') && Homed(s'.tables)
    && forall id :: AtFloor(s'.tables, id) <==> AtFloor(s.tables, id)
  }

  lemma NewProducersNext(t: Tables, entries: seq<Entry>)
    requires entries != []
    ensures
      var before, e := NewProducers(t, entries[..|entries| - 1]), entries[|entries| - 1];
      NewProducers(t, entries)
      == if IsNew(t, e) && e.id.producer !in t.producers then before + {e.id.producer} else before
  {
    var front, e := entries[..|entries| - 1], entries[|entries| - 1];
    forall p ensures
      p in NewProducers(t, entries)
      <==> p in NewProducers(t, front) || (IsNew(t, e) && e.id.producer !in t.producers && p == e.id.producer)
    {
      if p in NewProducers(t, entries) {
        var i :| 0 <= i < |entries| && IsNew(t, entries[i]) && entries[i].id.producer !in t.producers && entries[i].id.producer == p;
        assert i < |front| ==> front[i] == entries[i];
      }
      if p in NewProducers(t, front) {
        var i :| 0 <= i < |front| && IsNew(t, front[i]) && front[i].id.producer !in t.producers && front[i].id.producer == p;
        assert entries[i] == front[i];
      }
      assert entries[|entries| - 1] == e;
    }
  }

  lemma InsertOthers(d: Digester, s: Store, e: Entry, s': Store, id: ID)
    requires Homed(s.tables) && s' == InsertEntry(d, s, e) && id != e.id
    ensures SameAt(s, s', id)
  {
  }

  lemma InsertFloors(d: Digester, s: Store, e: Entry, s': Store)
    requires Homed(s.tables) && s' == InsertEntry(d, s, e)
    ensures Homed(s'.tables) && forall id :: AtFloor(s'.tables, id) <==> AtFloor(s.tables, id)
  {
  }

  lemma MentionedLast(entries: seq<Entry>, id: ID)
    requires entries != []
    ensures Mentioned(entries, id) <==> Mentioned(entries[..|entries| - 1], id) || entries[|entries| - 1].id == id
  {
    var front := entries[..|entries| - 1];
    if Mentioned(front, id) {
      var i :| 0 <= i < |front| && front[i].id == id;
      assert entries[i].id == id;
    }
    if Mentioned(entries, id) {
      var i :| 0 <= i < |entries| && entries[i].id == id;
      assert i < |front| ==> front[i].id == id;
    }
    assert entries[|entries| - 1] == entries[|entries| - 1];
  }

  lemma KeptOn(d: Digester, s: Store, entries: seq<Entry>, s1: Store, s': Store, i: nat)
    requires i < |entries| - 1 && Kept(d, s, entries[..|entries| - 1], s1, i) && SameAt(s1, s', entries[i].id)
    ensures Kept(d, s, entries, s', i)
  {
    assert entries[..|entries| - 1][..i] == entries[..i];
    assert entries[..|entries| - 1][i] == entries[i];
  }

  /** Rows that are the same at every other identity keep what is stored. */
  lemma RowsNext(d: Digester, s: Store, entries: seq<Entry>, s1: Store, s': Store)
    requires entries != [] && DistinctIds(entries) && RowsStored(d, s, entries[..|entries| - 1], s1)
    requires forall id | id != entries[|entries| - 1].id :: SameAt(s1, s', id)
    requires Kept(d, s, entries, s', |entries| - 1)
    ensures RowsStored(d, s, entries, s')
  {
    var front := entries[..|entries| - 1];
    hide SameAt;
    forall i | 0 <= i < |entries| ensures Kept(d, s, entries, s', i) {
      if i < |front| {
        assert Kept(d, s, front, s1, i);
        hide Kept;
        KeptOn(d, s, entries, s1, s', i);
      }
    }
    hide Kept;
    forall id | !Mentioned(entries, id) ensures SameAt(s, s', id) {
      MentionedLast(entries, id);
      SameOn(s, s1, s', id);
    }
  }

  lemma SameOn(a: Store, b: Store, c: Store, id: ID)
    requires SameAt(a, b, id) && SameAt(b, c, id)
    ensures SameAt(a, c, id)
  {
  }

  lemma NotMentioned(entries: seq<Entry>)
    requires entries != [] && DistinctIds(entries)
    ensures !Mentioned(entries[..|entries| - 1], entries[|entries| - 1].id)
  {
  }

  lemma NewNext(t: Tables, entries: seq<Entry>)
    requires entries != []
    ensures
      var front, e := entries[..|entries| - 1], entries[|entries| - 1];
      && NewCount(t, entries) == NewCount(t, front) + (if IsNew(t, e) then 1 else 0)
      && NewBytes(t, entries) == NewBytes(t, front) + (if IsNew(t, e) then |e.body| else 0)
  {
  }

  lemma InsertMeta(d: Digester, s: Store, e: Entry, s': Store)
    requires s' == InsertEntry(d, s, e)
    ensures s'.tables.producers.Keys == s.tables.producers.Keys + {e.id.producer}
    ensures
      var c := s.meta.counts;
      s'.meta == s.meta.(
        lastOrder := s.meta.lastOrder + 1,
        counts := Counts(c.pendingItems + 1, c.pendingPayload + |e.body|, c.receipts + 1,
                         c.producers + (if e.id.producer in s.tables.producers then 0 else 1),
                         c.retiredProducers, c.cleanupMarkers))
  {
  }

  lemma MetaNext(d: Digester, s: Store, entries: seq<Entry>, s1: Store, s': Store)
    requires entries != [] && MetaStored(s, entries[..|entries| - 1], s1)
    requires s' == if IsNew(s.tables, entries[|entries| - 1]) then InsertEntry(d, s1, entries[|entries| - 1]) else s1
    ensures MetaStored(s, entries, s')
  {
    hide NewProducers, NewCount, NewBytes, InsertEntry, IsNew;
    NewProducersNext(s.tables, entries);
    NewNext(s.tables, entries);
    var e, before := entries[|entries| - 1], NewProducers(s.tables, entries[..|entries| - 1]);
    if IsNew(s.tables, e) {
      InsertMeta(d, s1, e, s');
      Added(before, e.id.producer);
      assert e.id.producer in s1.tables.producers.Keys
        <==> e.id.producer in s.tables.producers.Keys || e.id.producer in before;
      NotKnown(s.tables, entries[..|entries| - 1], e.id.producer);
    }
  }

  lemma NotKnown(t: Tables, entries: seq<Entry>, p: nat)
    ensures p in NewProducers(t, entries) ==> p !in t.producers
  {
  }

  lemma Added(a: set<nat>, x: nat)
    ensures |a + {x}| == |a| + if x in a then 0 else 1
  {
    if x in a {
      assert a + {x} == a;
    }
  }

  /** One more entry without fault is stored as it should be. */
  lemma StoredNext(d: Digester, s: Store, entries: seq<Entry>, s1: Store, s': Store)
    requires entries != [] && DistinctIds(entries) && Stored(d, s, entries[..|entries| - 1], s1)
    requires FaultAt(d, s, entries, |entries| - 1) == None
    requires s' == if IsNew(s.tables, entries[|entries| - 1]) then InsertEntry(d, s1, entries[|entries| - 1]) else s1
    ensures Stored(d, s, entries, s')
  {
    var front, e := entries[..|entries| - 1], entries[|entries| - 1];
    NotMentioned(entries);
    assert SameAt(s, s1, e.id);
    MetaNext(d, s, entries, s1, s');
    hide NewProducers, NewBytes, NewCount, MetaStored, FaultAt, InsertEntry;
    if IsNew(s.tables, e) {
      InsertFloors(d, s1, e, s');
      forall id | id != e.id ensures SameAt(s1, s', id) {
        InsertOthers(d, s1, e, s', id);
      }
      InsertKept(d, s, entries, s1, s');
    } else {
      RetryKept(d, s, entries, s1);
      forall id ensures SameAt(s1, s', id) {
      }
    }
    hide Kept, SameAt, Homed, AtFloor;
    RowsNext(d, s, entries, s1, s');
  }

  lemma RetryKept(d: Digester, s: Store, entries: seq<Entry>, s1: Store)
    requires entries != [] && !IsNew(s.tables, entries[|entries| - 1]) && SameAt(s, s1, entries[|entries| - 1].id)
    ensures Kept(d, s, entries, s1, |entries| - 1)
  {
  }

  lemma InsertKept(d: Digester, s: Store, entries: seq<Entry>, s1: Store, s': Store)
    requires entries != [] && IsNew(s.tables, entries[|entries| - 1]) && MetaStored(s, entries[..|entries| - 1], s1)
    requires !AtFloor(s'.tables, entries[|entries| - 1].id) && s' == InsertEntry(d, s1, entries[|entries| - 1])
    ensures Kept(d, s, entries, s', |entries| - 1)
  {
    hide NewProducers, NewBytes, NewCount;
  }

  lemma StoredNone(d: Digester, s: Store)
    requires Homed(s.tables)
    ensures Stored(d, s, [], s)
  {
  }

  /** The first fault in batch order decides a batch, and one without a fault is stored. */
  lemma {:induction false} AcceptDecides(d: Digester, s: Store, entries: seq<Entry>)
    requires Homed(s.tables) && DistinctIds(entries)
    ensures AcceptAll(d, s, entries).Done? <==> FaultFree(d, s, entries, |entries|)
    ensures AcceptAll(d, s, entries).Done? ==> Stored(d, s, entries, AcceptAll(d, s, entries).value)
    ensures AcceptAll(d, s, entries).Failed? ==> Blames(d, s, entries, AcceptAll(d, s, entries).error)
    decreases |entries|
  {
    hide Stored, FaultAt;
    if entries == [] {
      StoredNone(d, s);
    } else {
      var n := |entries| - 1;
      AcceptDecides(d, s, entries[..n]);
      PrefixFaults(d, s, entries, n);
      if AcceptAll(d, s, entries[..n]).Done? {
        LastDecides(d, s, entries, AcceptAll(d, s, entries[..n]).value);
      } else {
        var error := AcceptAll(d, s, entries).error;
        var i: nat :| i < n && FaultAt(d, s, entries[..n], i) == Fault(error) && FaultFree(d, s, entries[..n], i);
        assert FaultFree(d, s, entries, i) && FaultAt(d, s, entries, i) == Fault(error);
      }
    }
  }

  lemma PrefixFaults(d: Digester, s: Store, entries: seq<Entry>, n: nat)
    requires n <= |entries|
    ensures forall i | 0 <= i < n :: FaultAt(d, s, entries[..n], i) == FaultAt(d, s, entries, i)
  {
    forall i | 0 <= i < n ensures FaultAt(d, s, entries[..n], i) == FaultAt(d, s, entries, i) {
      assert entries[..n][..i] == entries[..i] && entries[..n][i] == entries[i];
    }
  }

  /** The error is that of the first entry at fault. */
  ghost predicate Blames(d: Digester, s: Store, entries: seq<Entry>, error: Error) {
    exists i: nat :: i < |entries| && FaultAt(d, s, entries, i) == Fault(error) && FaultFree(d, s, entries, i)
  }

  lemma LastDecides(d: Digester, s: Store, entries: seq<Entry>, s1: Store)
    requires entries != [] && DistinctIds(entries) && Stored(d, s, entries[..|entries| - 1], s1)
    ensures
      var last := AcceptOne(d, s1, entries[|entries| - 1]);
      match FaultAt(d, s, entries, |entries| - 1)
      case None => last.Done? && Stored(d, s, entries, last.value)
      case Fault(error) => last == Failed(error)
  {
    var e := entries[|entries| - 1];
    NotMentioned(entries);
    assert SameAt(s, s1, e.id);
    assert Lookup(s1.tables, e.id) == Retired <==> AtFloor(s.tables, e.id);
    if FaultAt(d, s, entries, |entries| - 1) == None {
      StoredNext(d, s, entries, s1, AcceptOne(d, s1, e).value);
    }
  }

  lemma SoundHomed(d: Digester, s: Store)
    requires Sound(d, s)
    ensures Homed(s.tables)
  {
    forall id | id in s.tables.receipts ensures id.producer in s.tables.producers {
      assert ReceiptOk(d, s, id);
    }
  }

  /** A submission is applied if and only if no entry is at fault and all of it fits the policy. The error is that of
      the first entry at fault, or of the capacity. Applied, it stores every new entry with its payload, in batch order
      and waiting, and changes nothing else. */
  lemma SubmitMeans(d: Digester, s: Store, entries: seq<Entry>)
    requires Sound(d, s) && DistinctIds(entries)
    ensures
      var fits := Within(CountsWith(s, entries), s.meta.policy);
      match SubmitAll(d, s, entries)
      case Done(s') => FaultFree(d, s, entries, |entries|) && fits && Stored(d, s, entries, s')
      case Failed(error) =>
        if FaultFree(d, s, entries, |entries|) then !fits && error == ErrCapacity else Blames(d, s, entries, error)
  {
    hide Sound;
    SoundHomed(d, s);
    AcceptDecides(d, s, entries);
    hide FaultAt, RowsStored;
  }

  /** Submitting the same batch again is applied and changes nothing. */
  lemma SubmitAgain(d: Digester, s: Store, entries: seq<Entry>, s': Store)
    requires Sound(d, s) && DistinctIds(entries) && SubmitAll(d, s, entries) == Done(s')
    ensures SubmitAll(d, s', entries) == Done(s')
  {
    SubmitMeans(d, s, entries);
    AcceptAgain(d, s, entries, s', |entries|);
    assert entries[..|entries|] == entries;
    hide Sound, Stored;
  }

  lemma {:induction false} AcceptAgain(d: Digester, s: Store, entries: seq<Entry>, s': Store, n: nat)
    requires n <= |entries| && Stored(d, s, entries, s') && FaultFree(d, s, entries, |entries|)
    ensures AcceptAll(d, s', entries[..n]) == Done(s')
  {
    if n > 0 {
      AcceptAgain(d, s, entries, s', n - 1);
      assert entries[..n][..n - 1] == entries[..n - 1];
      assert Kept(d, s, entries, s', n - 1) && FaultAt(d, s, entries, n - 1) == None;
    }
  }

  // ---------------------------------------------------------------------------------------
  // Acknowledge

  /** The token of the current attempt of a pending identity, or a repeat of the token that completed one. */
  predicate Acceptable(s: Store, claims: map<ID, Claim>, token: Token) {
    && ThisSession(s.meta, token) && token.id in s.tables.receipts
    && match s.tables.receipts[token.id].state
       case Pending => CurrentClaim(claims, token)
       case Acked(first) => first == token
  }

  ghost predicate Named(tokens: seq<Token>, id: ID) {
    exists k :: 0 <= k < |tokens| && tokens[k].id == id
  }

  /** Every token has completed its identity, whose payload is gone, and nothing else is changed. */
  ghost predicate Completed(s: Store, tokens: seq<Token>, s': Store) {
    && s'.tables.receipts.Keys == s.tables.receipts.Keys && s'.tables.producers == s.tables.producers
    && (forall k | 0 <= k < |tokens| :: CompletedBy(s, tokens[k], s'))
    && (forall id | !Named(tokens, id) :: SameAt(s, s', id))
    && s'.meta == s.meta.(counts := s'.meta.counts)
  }

  predicate CompletedBy(s: Store, token: Token, s': Store) {
    && token.id in s.tables.receipts && token.id in s'.tables.receipts && token.id !in s'.tables.payloads
    && s'.tables.receipts[token.id] == s.tables.receipts[token.id].(state := Acked(token))
    && (Lookup(s.tables, token.id) in {Waiting, Acknowledged} ==> Lookup(s'.tables, token.id) == Acknowledged)
  }

  lemma NamedLast(tokens: seq<Token>, id: ID)
    requires tokens != []
    ensures Named(tokens, id) <==> Named(tokens[..|tokens| - 1], id) || tokens[|tokens| - 1].id == id
  {
    var front := tokens[..|tokens| - 1];
    if Named(front, id) {
      var k :| 0 <= k < |front| && front[k].id == id;
      assert tokens[k].id == id;
    }
    if Named(tokens, id) {
      var k :| 0 <= k < |tokens| && tokens[k].id == id;
      assert k < |front| ==> front[k].id == id;
    }
    assert tokens[|tokens| - 1] == tokens[|tokens| - 1];
  }

  lemma CompleteOthers(s: Store, token: Token, s': Store, id: ID)
    requires token.id in s.tables.receipts && token.id in s.tables.payloads && s.meta.counts.pendingItems > 0
    requires |s.tables.payloads[token.id].body| <= s.meta.counts.pendingPayload && s' == Complete(s, token) && id != token.id
    ensures SameAt(s, s', id)
  {
  }

  /** What one token does when it is accepted. */
  ghost predicate Effect(s: Store, token: Token, s': Store) {
    && CompletedBy(s, token, s') && (forall id | id != token.id :: SameAt(s, s', id))
    && s'.tables.receipts.Keys == s.tables.receipts.Keys && s'.tables.producers == s.tables.producers
    && s'.meta == s.meta.(counts := s'.meta.counts)
  }

  lemma CompleteEffect(s: Store, token: Token, s': Store)
    requires token.id in s.tables.receipts && token.id in s.tables.payloads && s.meta.counts.pendingItems > 0
    requires |s.tables.payloads[token.id].body| <= s.meta.counts.pendingPayload && s' == Complete(s, token)
    ensures Effect(s, token, s')
  {
    forall id | id != token.id ensures SameAt(s, s', id) {
      CompleteOthers(s, token, s', id);
    }
    hide SameAt;
    assert s'.tables.receipts.Keys == s.tables.receipts.Keys;
  }

  lemma RepeatEffect(s: Store, token: Token)
    requires token.id in s.tables.receipts && s.tables.receipts[token.id].state == Acked(token)
    requires s.tables.payloads.Keys == PendingIds(s.tables.receipts)
    ensures Effect(s, token, s)
  {
  }

  lemma OneCompletes(d: Digester, s: Store, claims: map<ID, Claim>, token: Token)
    requires Sound(d, s) && s.meta.epoch > 0
    ensures AckOne(s, claims, token).Done? <==> Acceptable(s, claims, token)
    ensures AckOne(s, claims, token).Failed? ==> AckOne(s, claims, token).error == ErrStaleToken
    ensures AckOne(s, claims, token).Done? ==> Effect(s, token, AckOne(s, claims, token).value)
  {
    AckOneKeeps(d, s, claims, token);
    hide Within, Recount, ProducersOk, ReceiptsOk, OrdersUnique;
    assert s.tables.payloads.Keys == PendingIds(s.tables.receipts);
    hide Sound, Effect, PendingIds;
    if Acceptable(s, claims, token) {
      if s.tables.receipts[token.id].state.Pending? {
        CompleteEffect(s, token, AckOne(s, claims, token).value);
      } else {
        RepeatEffect(s, token);
      }
    }
  }

  lemma {:induction false} AckDecides(d: Digester, s: Store, claims: map<ID, Claim>, tokens: seq<Token>)
    requires Sound(d, s) && s.meta.epoch > 0
    ensures
      match AckAll(s, claims, tokens)
      case Done(s') => (forall k | 0 <= k < |tokens| :: Acceptable(s, claims, tokens[k])) && Completed(s, tokens, s') && Sound(d, s')
      case Failed(error) => error == ErrStaleToken && exists k :: 0 <= k < |tokens| && !Acceptable(s, claims, tokens[k])
    decreases |tokens|
  {
    hide Sound, AckOne, Completed, Acceptable, Effect;
    AckKeeps(d, s, claims, tokens);
    if tokens == [] {
      CompletedNone(s);
    } else {
      var front, token := tokens[..|tokens| - 1], tokens[|tokens| - 1];
      AckDecides(d, s, claims, front);
      assert forall k | 0 <= k < |front| :: front[k] == tokens[k];
      if AckAll(s, claims, front).Done? {
        var s1 := AckAll(s, claims, front).value;
        CompletedMeta(s, front, s1);
        OneCompletes(d, s1, claims, token);
        SameAcceptable(s, claims, front, s1, token);
        if AckOne(s1, claims, token).Done? {
          CompletedNext(s, claims, tokens, s1, AckOne(s1, claims, token).value);
        }
      }
    }
  }

  lemma CompletedNone(s: Store)
    ensures Completed(s, [], s)
  {
  }

  lemma CompletedMeta(s: Store, tokens: seq<Token>, s': Store)
    requires Completed(s, tokens, s')
    ensures s'.meta.epoch == s.meta.epoch
  {
  }

  lemma SameAcceptable(s: Store, claims: map<ID, Claim>, tokens: seq<Token>, s1: Store, token: Token)
    requires Completed(s, tokens, s1) && forall k | 0 <= k < |tokens| :: Acceptable(s, claims, tokens[k])
    ensures Acceptable(s1, claims, token) <==> Acceptable(s, claims, token)
  {
    if Named(tokens, token.id) {
      var k :| 0 <= k < |tokens| && tokens[k].id == token.id;
      assert CompletedBy(s, tokens[k], s1) && Acceptable(s, claims, tokens[k]);
    } else {
      assert SameAt(s, s1, token.id);
    }
  }

  lemma CompletedNext(s: Store, claims: map<ID, Claim>, tokens: seq<Token>, s1: Store, s': Store)
    requires tokens != [] && Completed(s, tokens[..|tokens| - 1], s1)
    requires Effect(s1, tokens[|tokens| - 1], s') && Acceptable(s1, claims, tokens[|tokens| - 1])
    ensures Completed(s, tokens, s')
  {
    var front, token := tokens[..|tokens| - 1], tokens[|tokens| - 1];
    forall k | 0 <= k < |tokens| ensures CompletedBy(s, tokens[k], s') {
      if k < |front| {
        assert front[k] == tokens[k] && CompletedBy(s, front[k], s1);
        if tokens[k].id != token.id {
          assert SameAt(s1, s', tokens[k].id);
        }
      } else {
        LastCompletes(s, front, s1, token, s');
      }
    }
    hide CompletedBy;
    forall id | !Named(tokens, id) ensures SameAt(s, s', id) {
      NamedLast(tokens, id);
      hide SameAt;
      SameOn(s, s1, s', id);
    }
  }

  lemma LastCompletes(s: Store, front: seq<Token>, s1: Store, token: Token, s': Store)
    requires Completed(s, front, s1) && CompletedBy(s1, token, s')
    ensures CompletedBy(s, token, s')
  {
    if Named(front, token.id) {
      var k :| 0 <= k < |front| && front[k].id == token.id;
      assert CompletedBy(s, front[k], s1);
    } else {
      assert SameAt(s, s1, token.id);
    }
  }

  /** An acknowledgement is applied if and only if each token is of the current attempt of its identity, or the one
      that completed it. Otherwise it is stale, and the store is never found broken. Applied, each token completes its
      identity and nothing else changes. */
  lemma AckMeans(d: Digester, s: Store, claims: map<ID, Claim>, tokens: seq<Token>)
    requires Sound(d, s) && s.meta.epoch > 0
    ensures
      match AckAll(s, claims, tokens)
      case Done(s') => (forall k | 0 <= k < |tokens| :: Acceptable(s, claims, tokens[k])) && Completed(s, tokens, s')
      case Failed(error) => error == ErrStaleToken && exists k :: 0 <= k < |tokens| && !Acceptable(s, claims, tokens[k])
  {
    hide Sound, AckAll, Acceptable, Completed;
    AckDecides(d, s, claims, tokens);
  }

  // ---------------------------------------------------------------------------------------
  // Retire

  predicate Through(id: ID, k: ID) {
    k.producer == id.producer && k.sequence <= id.sequence
  }

  /** A retirement is applied unless it needs a producer row too many, or something up to it waits. Applied, exactly
      the identities up to it are retired besides those that were, and every other status, receipt and payload stays. */
  lemma RetireMeans(d: Digester, s: Store, id: ID)
    requires Sound(d, s)
    ensures
      var full := id.producer !in s.tables.producers && s.meta.counts.producers == s.meta.policy.maxProducers;
      match RetireOne(s, id)
      case Done(s') =>
        && !full && (forall k | Through(id, k) :: Lookup(s.tables, k) != Waiting && Lookup(s'.tables, k) == Retired)
        && (forall k | !Through(id, k) :: Lookup(s'.tables, k) == Lookup(s.tables, k))
        && s'.tables.receipts == s.tables.receipts && s'.tables.payloads == s.tables.payloads
        && s'.meta.lastOrder == s.meta.lastOrder && SameSession(s, s')
      case Failed(error) =>
        if full then error == ErrCapacity
        else error == ErrConflict && exists k :: Through(id, k) && Lookup(s.tables, k) == Waiting
  {
    SoundHomed(d, s);
    hide Recount, Within;
    forall r | r in s.tables.receipts ensures ReceiptOk(d, s, r) {
    }
    var full := id.producer !in s.tables.producers && s.meta.counts.producers == s.meta.policy.maxProducers;
    hide Sound;
    match RetireOne(s, id) {
      case Done(s') =>
        forall k | Through(id, k) ensures Lookup(s.tables, k) != Waiting && Lookup(s'.tables, k) == Retired {
        }
        forall k | !Through(id, k) ensures Lookup(s'.tables, k) == Lookup(s.tables, k) {
        }
      case Failed(error) =>
        if !full {
          var r :| r in s.tables.receipts && s.tables.receipts[r].state.Pending? && r.producer == id.producer && r.sequence <= id.sequence;
          assert Through(id, r) && Lookup(s.tables, r) == Waiting;
        }
    }
  }
}
