/** The coordinator's executor over the open transaction. The tables change in place; the metadata is a
    copy that becomes current when the transaction commits. */
module DurableQueue {
  import opened DurableTables
  import opened DurableCommands
  import opened DurableExecution

  datatype Decision = Applied | NotApplied(error: Error)

  /** A group runs its commands in order against the store the earlier ones left, with the claims as
      they were when the group began; a rejected command leaves no trace. */
  ghost function RunGroup(d: Digester, s: Store, claims: map<ID, Claim>, cmds: seq<Command>): (Store, seq<Decision>)
    decreases |cmds|
  {
    if cmds == [] then (s, [])
    else
      var before := RunGroup(d, s, claims, cmds[..|cmds| - 1]);
      var last := Execute(d, before.0, claims, cmds[|cmds| - 1]);
      if last.Done? then (last.value, before.1 + [Applied]) else (before.0, before.1 + [NotApplied(last.error)])
  }

  lemma RunNext(d: Digester, s: Store, claims: map<ID, Claim>, cmds: seq<Command>, i: nat)
    requires i < |cmds|
    ensures
      var before := RunGroup(d, s, claims, cmds[..i]);
      var last := Execute(d, before.0, claims, cmds[i]);
      RunGroup(d, s, claims, cmds[..i + 1])
        == if last.Done? then (last.value, before.1 + [Applied]) else (before.0, before.1 + [NotApplied(last.error)])
  {
    assert cmds[..i + 1][..i] == cmds[..i];
  }

  lemma {:induction false} GroupKeeps(d: Digester, s: Store, claims: map<ID, Claim>, cmds: seq<Command>)
    requires Sound(d, s) && s.meta.epoch > 0 && (forall i | 0 <= i < |cmds| :: Legal(s.meta.policy, cmds[i]))
    ensures Sound(d, RunGroup(d, s, claims, cmds).0) && SameSession(s, RunGroup(d, s, claims, cmds).0)
    ensures |RunGroup(d, s, claims, cmds).1| == |cmds|
    decreases |cmds|
  {
    hide Sound, Legal;
    if cmds != [] {
      var before := cmds[..|cmds| - 1];
      GroupKeeps(d, s, claims, before);
      var s1 := RunGroup(d, s, claims, before).0;
      var o := Execute(d, s1, claims, cmds[|cmds| - 1]);
      assert Legal(s.meta.policy, cmds[|cmds| - 1]);
      hide Execute;
      if o.Done? { ExecuteKeeps(d, s1, claims, cmds[|cmds| - 1], o.value); }
    }
  }

  /** The metadata with one more pending entry, apart from its producer. */
  function CountEntry(m: Metadata, e: Entry): Metadata {
    var c := m.counts;
    m.(lastOrder := m.lastOrder + 1,
       counts := c.(pendingItems := c.pendingItems + 1,
                    pendingPayload := c.pendingPayload + |e.body|,
                    receipts := c.receipts + 1))
  }

  /** Storing a new entry adds up in the metadata as it does in the tables, whether its producer was
      known before the batch, is new in it, or appeared earlier in it. */
  lemma CountsEntry(d: Digester, t: Tables, si: Store, e: Entry, producers: set<nat>)
    requires forall p | p in t.producers :: p in si.tables.producers
    requires forall p :: p in producers <==> p in si.tables.producers && p !in t.producers
    ensures
      var next, known := CountEntry(si.meta, e), e.id.producer in t.producers || e.id.producer in producers;
      && InsertEntry(d, si, e).meta
         == (if known then next else next.(counts := next.counts.(producers := next.counts.producers + 1)))
      && (forall p :: p in InsertEntry(d, si, e).tables.producers && p !in t.producers
            <==> p in producers || (!known && p == e.id.producer))
  {
  }

  /** Both tables answer alike about `id`, and no producer is lost. */
  ghost predicate SameFor(t: Tables, t': Tables, id: ID) {
    && (Lookup(t', id) == Retired <==> Lookup(t, id) == Retired)
    && (id in t'.receipts <==> id in t.receipts) && (id in t.receipts ==> t'.receipts[id] == t.receipts[id])
    && (forall p | p in t.producers :: p in t'.producers)
  }

  lemma CheckStep(d: Digester, s: Store, entries: seq<Entry>, i: nat, si: Store)
    requires i < |entries| && DistinctIds(entries) && AcceptAll(d, s, entries[..i]) == Done(si)
    ensures SameFor(s.tables, si.tables, entries[i].id)
    ensures AcceptAll(d, s, entries[..i + 1]) == AcceptOne(d, si, entries[i])
    ensures AcceptOne(d, si, entries[i]).Failed? ==> AcceptAll(d, s, entries) == AcceptOne(d, si, entries[i])
  {
    SameCheck(d, s, entries, i, si);
    AcceptNext(d, s, entries, i, si);
    if AcceptOne(d, si, entries[i]).Failed? {
      FailureStays(d, s, entries, i + 1);
    }
  }

  class Queue {
    const digest: Digester
    var tables: Tables
    var meta: Metadata
    var claims: map<ID, Claim>

    constructor (digest: Digester, store: Store)
      ensures this.digest == digest && tables == store.tables && meta == store.meta && claims == map[]
    {
      this.digest := digest;
      tables, meta, claims := store.tables, store.meta, map[];
    }

    /** One entry of the first pass, read against the tables as they stand. `seen` are the producers the
        batch adds; `si` is the store as it would be with the entries before this one. */
    method CheckEntry(e: Entry, next: Metadata, seen: set<nat>, ghost si: Store)
      returns (r: Outcome<(Metadata, bool)>, seen': set<nat>)
      requires next == si.meta && SameFor(tables, si.tables, e.id)
      requires forall p :: p in seen <==> p in si.tables.producers && p !in tables.producers
      ensures r.Failed? ==> AcceptOne(digest, si, e) == Failed(r.error)
      ensures r.Done? ==>
        && AcceptOne(digest, si, e).Done?
        && r.value == (AcceptOne(digest, si, e).value.meta, e.id !in tables.receipts)
        && forall p :: p in seen' <==> p in AcceptOne(digest, si, e).value.tables.producers && p !in tables.producers
    {
      seen' := seen;
      if Lookup(tables, e.id) == Retired {
        return Failed(ErrRetired), seen;
      }
      if e.id in tables.receipts {
        if tables.receipts[e.id].digest != digest(e.codec, e.body) {
          return Failed(ErrConflict), seen;
        }
        return Done((next, false)), seen;
      }
      if next.lastOrder == MAX_IDENTITY {
        return Failed(ErrExhausted), seen;
      }
      CountsEntry(digest, tables, si, e, seen);
      var counted := CountEntry(next, e);
      if e.id.producer !in tables.producers && e.id.producer !in seen {
        seen' := seen + {e.id.producer};
        counted := counted.(counts := counted.counts.(producers := counted.counts.producers + 1));
      }
      return Done((counted, true)), seen';
    }

    /** The first pass of a submission: reads the tables, adds up the metadata. */
    method ValidateStoredSubmit(entries: seq<Entry>, m: Metadata) returns (r: Outcome<(Metadata, seq<bool>)>)
      requires DistinctIds(entries)
      ensures r.Failed? ==> SubmitAll(digest, Store(tables, m), entries) == Failed(r.error)
      ensures r.Done? ==>
        && SubmitAll(digest, Store(tables, m), entries).Done?
        && SubmitAll(digest, Store(tables, m), entries).value.meta == r.value.0
        && FreshFlags(tables, entries, r.value.1)
    {
      ghost var s := Store(tables, m);
      ghost var si := s;
      var next, added := m, [];
      var seen: set<nat> := {};
      for i := 0 to |entries|
        invariant AcceptAll(digest, s, entries[..i]) == Done(si) && next == si.meta
        invariant |added| == i && forall j | 0 <= j < i :: added[j] == (entries[j].id !in tables.receipts)
        invariant forall p :: p in seen <==> p in si.tables.producers && p !in tables.producers
      {
        CheckStep(digest, s, entries, i, si);
        hide AcceptAll, AcceptOne, SameFor;
        var checked, seen' := CheckEntry(entries[i], next, seen, si);
        if checked.Failed? {
          return Failed(checked.error);
        }
        next, added, seen := checked.value.0, added + [checked.value.1], seen';
        si := AcceptOne(digest, si, entries[i]).value;
      }
      assert entries[..|entries|] == entries;
      if !Within(next.counts, m.policy) {
        return Failed(ErrCapacity);
      }
      return Done((next, added));
    }

    /** The second pass: stores the new entries, numbering them back from the last order. */
    method InsertFresh(entries: seq<Entry>, added: seq<bool>, next: Metadata, ghost m: Metadata)
      requires DistinctIds(entries) && FreshFlags(tables, entries, added)
      requires AcceptAll(digest, Store(tables, m), entries).Done?
      requires AcceptAll(digest, Store(tables, m), entries).value.meta == next
      modifies this`tables
      ensures tables == AcceptAll(digest, Store(old(tables), m), entries).value.tables
    {
      ghost var s := Store(tables, m);
      ghost var si := s;
      for i := 0 to |entries|
        invariant AcceptAll(digest, s, entries[..i]) == Done(si) && tables == si.tables
      {
        var e := entries[i];
        SameCheck(digest, s, entries, i, si);
        AcceptNext(digest, s, entries, i, si);
        PrefixDone(digest, s, entries, i + 1);
        if added[i] {
          var after := CountFreshAfter(added, i);
          OrdersCountBack(digest, s, entries, i + 1, added);
          var order := next.lastOrder - after;
          assert order == si.meta.lastOrder + 1;
          InsertRow(e, order);
          si := InsertEntry(digest, si, e);
        }
      }
      assert entries[..|entries|] == entries;
    }

    method InsertRow(e: Entry, order: nat)
      modifies this`tables
      ensures forall m: Metadata | m.lastOrder + 1 == order :: tables == InsertEntry(digest, Store(old(tables), m), e).tables
    {
      var t := tables;
      if e.id.producer !in t.producers {
        t := t.(producers := t.producers[e.id.producer := Producer(false, 0, false)]);
      }
      t := t.(receipts := t.receipts[e.id := Receipt(digest(e.codec, e.body), Pending, order)]);
      t := t.(payloads := t.payloads[e.id := Payload(e.codec, e.body)]);
      tables := t;
    }

    method ApplySubmit(entries: seq<Entry>, m: Metadata) returns (r: Outcome<Metadata>)
      requires DistinctIds(entries)
      modifies this`tables
      ensures Carried(old(tables), tables, r, SubmitAll(digest, Store(old(tables), m), entries))
    {
      var checked := ValidateStoredSubmit(entries, m);
      if checked.Failed? {
        return Failed(checked.error);
      }
      InsertFresh(entries, checked.value.1, checked.value.0, m);
      return Done(checked.value.0);
    }

    /** The first pass of an acknowledgement: the tables and the claims are only read. */
    method ValidateAck(tokens: seq<Token>, m: Metadata) returns (r: Outcome<Counts>)
      requires Distinct(tokens)
      ensures r.Failed? ==> AckAll(Store(tables, m), claims, tokens) == Failed(r.error)
      ensures r.Done? ==>
        && AckAll(Store(tables, m), claims, tokens).Done?
        && AckAll(Store(tables, m), claims, tokens).value.meta.counts == r.value
    {
      ghost var s := Store(tables, m);
      ghost var si := s;
      var counts := m.counts;
      for i := 0 to |tokens|
        invariant AckAll(s, claims, tokens[..i]) == Done(si) && counts == si.meta.counts
      {
        var token := tokens[i];
        AckNext(s, claims, tokens, i, si);
        SameAck(s, claims, tokens, i, si);
        if AckOne(si, claims, token).Failed? {
          AckFailureStays(s, claims, tokens, i + 1);
        }
        hide AckAll;
        if !ThisSession(m, token) || token.id !in tables.receipts {
          return Failed(ErrStaleToken);
        }
        if tables.receipts[token.id].state.Acked? {
          if tables.receipts[token.id].state.token != token {
            return Failed(ErrStaleToken);
          }
        } else {
          if !CurrentClaim(claims, token) {
            return Failed(ErrStaleToken);
          }
          if token.id !in tables.payloads || counts.pendingItems == 0
             || |tables.payloads[token.id].body| > counts.pendingPayload {
            return Failed(ErrStorage);
          }
          counts := counts.(pendingItems := counts.pendingItems - 1,
                            pendingPayload := counts.pendingPayload - |tables.payloads[token.id].body|);
          si := Complete(si, token);
        }
      }
      assert tokens[..|tokens|] == tokens;
      return Done(counts);
    }

    method ApplyAck(tokens: seq<Token>, ghost m: Metadata)
      requires AckAll(Store(tables, m), claims, tokens).Done?
      requires tables.payloads.Keys == PendingIds(tables.receipts)
      modifies this`tables
      ensures tables == AckAll(Store(old(tables), m), claims, tokens).value.tables
    {
      ghost var s := Store(tables, m);
      ghost var si := s;
      for i := 0 to |tokens|
        invariant AckAll(s, claims, tokens[..i]) == Done(si) && tables == si.tables
        invariant tables.payloads.Keys == PendingIds(tables.receipts)
      {
        var token := tokens[i];
        AckNext(s, claims, tokens, i, si);
        AckPrefixDone(s, claims, tokens, i + 1);
        hide AckAll;
        si := AckOne(si, claims, token).value;
        if tables.receipts[token.id].state.Pending? {
          tables := tables.(receipts := tables.receipts[token.id := tables.receipts[token.id].(state := Acked(token))]);
        }
        tables := tables.(payloads := tables.payloads - {token.id});
      }
      assert tokens[..|tokens|] == tokens;
    }

    method ApplyRetirement(id: ID, m: Metadata) returns (r: Outcome<Metadata>)
      modifies this`tables
      ensures Carried(old(tables), tables, r, RetireOne(Store(old(tables), m), id))
    {
      var unknown := id.producer !in tables.producers;
      var row := if unknown then Producer(false, 0, false) else tables.producers[id.producer];
      if row.retired && id.sequence <= row.floor {
        return Done(m);
      }
      if unknown && m.counts.producers == m.policy.maxProducers {
        return Failed(ErrCapacity);
      }
      if exists k | k in tables.receipts ::
          tables.receipts[k].state.Pending? && k.producer == id.producer && k.sequence <= id.sequence {
        return Failed(ErrConflict);
      }
      var c := m.counts;
      tables := tables.(producers := tables.producers[id.producer := Producer(true, id.sequence, true)]);
      if unknown {
        c := c.(producers := c.producers + 1);
      }
      if !row.retired {
        c := c.(retiredProducers := c.retiredProducers + 1);
      }
      if !row.cleanup {
        c := c.(cleanupMarkers := c.cleanupMarkers + 1);
      }
      return Done(m.(counts := c));
    }

    method ApplyCommand(c: Command, m: Metadata) returns (r: Outcome<Metadata>)
      requires Sound(digest, Store(tables, m)) && Legal(m.policy, c)
      modifies this`tables
      ensures Carried(old(tables), tables, r, Execute(digest, Store(old(tables), m), claims, c))
    {
      match c
      case Submit(entries) => r := ApplySubmit(entries, m);
      case RetireThrough(id) => r := ApplyRetirement(id, m);
      case Ack(tokens) =>
        var counts := ValidateAck(tokens, m);
        if counts.Failed? {
          return Failed(counts.error);
        }
        AckOnly(Store(tables, m), claims, tokens);
        ApplyAck(tokens, m);
        return Done(m.(counts := counts.value));
    }

    /** One cleanup transaction: deletes the first retired receipts of the first marked producer, and its
        marker once none is left. */
    method DeleteRetiredReceipts(limit: nat) returns (p: nat, rows: set<ID>)
      requires Sound(digest, Store(tables, meta)) && meta.counts.cleanupMarkers > 0
      modifies this`tables, this`meta
      ensures Chosen(old(tables), p, limit, rows)
      ensures p in old(tables).producers && rows <= old(tables).receipts.Keys && |rows| <= old(meta).counts.receipts
      ensures Store(tables, meta) == Clean(Store(old(tables), old(meta)), p, rows)
      ensures Sound(digest, Store(tables, meta))
    {
      ghost var s := Store(tables, meta);
      p, rows := ChooseRows(limit);
      assert p in MarkedProducers(tables.producers) && rows <= Removable(tables, p);
      var all := Removable(tables, p);
      hide Sound, Chosen, Removable, MarkedProducers;
      CleanDefined(digest, s, p, rows);
      DeleteRows(rows);
      var c := meta.counts.(receipts := meta.counts.receipts - |rows|);
      if rows == all {
        tables := tables.(producers := tables.producers[p := tables.producers[p].(cleanup := false)]);
        c := c.(cleanupMarkers := c.cleanupMarkers - 1);
      }
      meta := meta.(counts := c);
      CleanKeeps(digest, s, p, rows, Store(tables, meta));
    }

    method ChooseRows(limit: nat) returns (p: nat, rows: set<ID>)
      requires Sound(digest, Store(tables, meta)) && meta.counts.cleanupMarkers > 0
      ensures Chosen(tables, p, limit, rows)
    {
      assert MarkedProducers(tables.producers) != {};
      p := Least(MarkedProducers(tables.producers));
      rows := FirstRows(Removable(tables, p), p, limit);
    }

    method DeleteRows(rows: set<ID>)
      modifies this`tables
      ensures tables == old(tables).(receipts := old(tables).receipts - rows)
    {
      var left := rows;
      while left != {}
        invariant left <= rows && tables == old(tables).(receipts := old(tables).receipts - (rows - left))
        decreases |left|
      {
        var key :| key in left;
        assert rows - (left - {key}) == rows - left + {key};
        tables := tables.(receipts := tables.receipts - {key});
        left := left - {key};
      }
      assert rows - {} == rows;
    }

    /** Runs a group inside one transaction, then drops the claims of what it acknowledged. */
    method ExecuteGroup(cmds: seq<Command>) returns (results: seq<Decision>)
      requires Sound(digest, Store(tables, meta)) && meta.epoch > 0
      requires forall i | 0 <= i < |cmds| :: Legal(meta.policy, cmds[i])
      modifies this
      ensures |results| == |cmds|
      ensures (Store(tables, meta), results) == RunGroup(digest, Store(old(tables), old(meta)), old(claims), cmds)
      ensures claims == ClearAcked(old(claims), cmds, results)
      ensures Sound(digest, Store(tables, meta))
    {
      ghost var s := Store(tables, meta);
      var metadata := meta;
      results := [];
      for i := 0 to |cmds|
        invariant meta == old(meta) && claims == old(claims)
        invariant (Store(tables, metadata), results) == RunGroup(digest, s, claims, cmds[..i])
        invariant Sound(digest, Store(tables, metadata)) && SameSession(s, Store(tables, metadata))
      {
        hide Sound, Legal;
        RunNext(digest, s, claims, cmds, i);
        GroupKeeps(digest, s, claims, cmds[..i + 1]);
        assert Legal(meta.policy, cmds[i]);
        hide Execute, RunGroup;
        var applied := ApplyCommand(cmds[i], metadata);
        if applied.Failed? {
          results := results + [NotApplied(applied.error)];
        } else {
          metadata := applied.value;
          results := results + [Applied];
        }
      }
      assert cmds[..|cmds|] == cmds;
      GroupKeeps(digest, s, claims, cmds);
      meta := metadata;
      claims := ClearAcked(claims, cmds, results);
    }
  }

  method Least(numbers: set<nat>) returns (least: nat)
    requires numbers != {}
    ensures least in numbers && forall n | n in numbers :: least <= n
  {
    least :| least in numbers;
    var left := numbers - {least};
    while left != {}
      invariant left <= numbers && least in numbers && forall n | n in numbers && n !in left :: least <= n
      decreases |left|
    {
      var n :| n in left;
      left := left - {n};
      if n < least {
        least := n;
      }
    }
  }

  /** The first keys in order, up to the limit. */
  method FirstRows(all: set<ID>, producer: nat, limit: nat) returns (rows: set<ID>)
    requires forall id | id in all :: id.producer == producer
    ensures rows <= all && |rows| <= limit && (|rows| < limit ==> rows == all)
    ensures forall a, b | a in rows && b in all - rows :: a.sequence < b.sequence
  {
    rows := {};
    while |rows| < limit && rows != all
      invariant rows <= all && |rows| <= limit
      invariant forall a, b | a in rows && b in all - rows :: a.sequence < b.sequence
      decreases |all - rows|
    {
      assert all - rows != {};
      var key := LeastKey(all - rows, producer);
      assert all - (rows + {key}) == all - rows - {key};
      rows := rows + {key};
    }
  }

  method LeastKey(keys: set<ID>, producer: nat) returns (least: ID)
    requires keys != {} && forall id | id in keys :: id.producer == producer
    ensures least in keys && forall id | id in keys && id != least :: least.sequence < id.sequence
  {
    least :| least in keys;
    var left := keys - {least};
    while left != {}
      invariant left <= keys && least in keys
      invariant forall id | id in keys && id !in left :: least.sequence <= id.sequence
      decreases |left|
    {
      var id :| id in left;
      left := left - {id};
      if id.sequence < least.sequence {
        least := id;
      }
    }
    forall id | id in keys && id != least ensures least.sequence < id.sequence {
      assert id.producer == least.producer;
    }
  }

  /** What a command's method did to the tables, and what it returned, is what the command means. */
  ghost predicate Carried(before: Tables, after: Tables, r: Outcome<Metadata>, meaning: Outcome<Store>) {
    match meaning
    case Done(s) => r == Done(s.meta) && after == s.tables
    case Failed(e) => r == Failed(e) && after == before
  }

  /** The claims left after some tokens have completed. */
  function ClearTokens(claims: map<ID, Claim>, tokens: seq<Token>): map<ID, Claim> {
    map id | id in claims && !(claims[id].acquired && claims[id].token in tokens && claims[id].token.id == id) :: claims[id]
  }

  function ClearAcked(claims: map<ID, Claim>, cmds: seq<Command>, results: seq<Decision>): map<ID, Claim>
    requires |results| == |cmds|
    decreases |cmds|
  {
    if cmds == [] then claims
    else
      var before := ClearAcked(claims, cmds[..|cmds| - 1], results[..|cmds| - 1]);
      if results[|cmds| - 1].Applied? && cmds[|cmds| - 1].Ack? then ClearTokens(before, cmds[|cmds| - 1].tokens)
      else before
  }

  lemma AckPrefixDone(s: Store, claims: map<ID, Claim>, tokens: seq<Token>, i: nat)
    requires i <= |tokens| && AckAll(s, claims, tokens).Done?
    ensures AckAll(s, claims, tokens[..i]).Done?
  {
    if AckAll(s, claims, tokens[..i]).Failed? {
      AckFailureStays(s, claims, tokens, i);
    }
  }

  /** Checking a token against the tables of the batch's start tells the same as checking it after the
      tokens before it: another token for an identity completed in the batch is stale either way. */
  lemma SameAck(s: Store, claims: map<ID, Claim>, tokens: seq<Token>, i: nat, si: Store)
    requires i < |tokens| && Distinct(tokens) && AckAll(s, claims, tokens[..i]) == Done(si)
    ensures si.meta == s.meta.(counts := si.meta.counts)
    ensures si.tables.receipts.Keys == s.tables.receipts.Keys
    ensures
      var id := tokens[i].id;
      id in s.tables.receipts ==>
        || (&& si.tables.receipts[id] == s.tables.receipts[id]
            && (s.tables.receipts[id].state.Pending? ==>
                  && (id in si.tables.payloads <==> id in s.tables.payloads)
                  && (id in s.tables.payloads ==> si.tables.payloads[id] == s.tables.payloads[id])))
        || (&& s.tables.receipts[id].state.Pending? && !CurrentClaim(claims, tokens[i])
            && si.tables.receipts[id].state.Acked? && si.tables.receipts[id].state.token != tokens[i])
  {
    AckOnly(s, claims, tokens[..i]);
    assert tokens[i] !in tokens[..i];
  }
}
