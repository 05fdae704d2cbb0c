/** How the coordinator carries out commands: each in two passes over its batch, first a check against
    the tables as they stand, then the writes; groups of commands inside one transaction. */
module DurableExecution {
  import opened DurableTables
  import opened DurableCommands

  // ---------------------------------------------------------------------------------------
  // Submissions

  /** `after` is `before` with the identities of `entries` possibly added. */
  ghost predicate Grew(before: Tables, after: Tables, entries: seq<Entry>) {
    && (forall id | id in before.receipts :: id in after.receipts && after.receipts[id] == before.receipts[id])
    && (forall id | id in after.receipts && id !in before.receipts :: exists j :: 0 <= j < |entries| && entries[j].id == id)
    && (forall p | p in before.producers :: p in after.producers && after.producers[p] == before.producers[p])
    && (forall p | p in after.producers && p !in before.producers :: !after.producers[p].retired)
  }

  lemma {:induction false} AcceptGrows(d: Digester, s: Store, entries: seq<Entry>)
    requires AcceptAll(d, s, entries).Done?
    ensures Grew(s.tables, AcceptAll(d, s, entries).value.tables, entries)
    ensures SameSession(s, AcceptAll(d, s, entries).value)
    decreases |entries|
  {
    if entries != [] {
      var before, e := entries[..|entries| - 1], entries[|entries| - 1];
      AcceptGrows(d, s, before);
      var s1, s2 := AcceptAll(d, s, before).value, AcceptAll(d, s, entries).value;
      hide AcceptAll;
      forall id | id in s2.tables.receipts && id !in s.tables.receipts
        ensures exists j :: 0 <= j < |entries| && entries[j].id == id
      {
        if id == e.id {
          assert entries[|entries| - 1].id == id;
        } else {
          assert id in s1.tables.receipts;
          var j :| 0 <= j < |before| && before[j].id == id;
          assert entries[j].id == id;
        }
      }
    }
  }

  ghost predicate DistinctIds(entries: seq<Entry>) {
    forall i, j | 0 <= i < j < |entries| :: entries[i].id != entries[j].id
  }

  /** Checking an entry against the tables of the whole batch's start tells the same as checking it
      after the entries before it were stored. */
  lemma SameCheck(d: Digester, s: Store, entries: seq<Entry>, i: nat, si: Store)
    requires i < |entries| && DistinctIds(entries) && AcceptAll(d, s, entries[..i]) == Done(si)
    ensures Lookup(si.tables, entries[i].id) == Retired <==> Lookup(s.tables, entries[i].id) == Retired
    ensures entries[i].id in si.tables.receipts <==> entries[i].id in s.tables.receipts
    ensures entries[i].id in s.tables.receipts ==>
      si.tables.receipts[entries[i].id] == s.tables.receipts[entries[i].id]
    ensures SameSession(s, si) && Grew(s.tables, si.tables, entries[..i])
  {
    AcceptGrows(d, s, entries[..i]);
    assert forall j | 0 <= j < i :: entries[..i][j].id != entries[i].id;
  }

  lemma {:induction false} FailureStays(d: Digester, s: Store, entries: seq<Entry>, i: nat)
    requires i <= |entries| && AcceptAll(d, s, entries[..i]).Failed?
    ensures AcceptAll(d, s, entries) == AcceptAll(d, s, entries[..i])
    decreases |entries|
  {
    if i < |entries| {
      assert entries[..|entries| - 1][..i] == entries[..i];
      FailureStays(d, s, entries[..|entries| - 1], i);
    } else {
      assert entries[..i] == entries;
    }
  }

  lemma AcceptNext(d: Digester, s: Store, entries: seq<Entry>, i: nat, si: Store)
    requires i < |entries| && AcceptAll(d, s, entries[..i]) == Done(si)
    ensures AcceptAll(d, s, entries[..i + 1]) == AcceptOne(d, si, entries[i])
  {
    assert entries[..i + 1][..i] == entries[..i];
  }

  /** The number of set flags. */
  function CountTrue(flags: seq<bool>): nat {
    if flags == [] then 0
    else CountTrue(flags[..|flags| - 1]) + if flags[|flags| - 1] then 1 else 0
  }

  lemma {:induction false} CountHead(flags: seq<bool>)
    requires flags != []
    ensures CountTrue(flags) == (if flags[0] then 1 else 0) + CountTrue(flags[1..])
  {
    if |flags| > 1 {
      var front := flags[..|flags| - 1];
      CountHead(front);
      assert front[1..] == flags[1..][..|flags| - 2];
    }
  }

  method CountFreshAfter(added: seq<bool>, index: nat) returns (count: nat)
    requires index < |added|
    ensures count == CountTrue(added[index + 1..])
  {
    count := 0;
    var rest := added[index + 1..];
    for i := 0 to |rest|
      invariant count == CountTrue(rest[..i])
    {
      assert rest[..i + 1][..i] == rest[..i];
      if rest[i] {
        count := count + 1;
      }
    }
    assert rest[..|rest|] == rest;
  }

  ghost predicate FreshFlags(t: Tables, entries: seq<Entry>, added: seq<bool>) {
    |added| == |entries| && forall i | 0 <= i < |entries| :: added[i] == (entries[i].id !in t.receipts)
  }

  /** The order given to entry `i` counts back from the last order of the whole batch. */
  lemma {:induction false} OrdersCountBack(d: Digester, s: Store, entries: seq<Entry>, i: nat, added: seq<bool>)
    requires i <= |entries| && DistinctIds(entries) && FreshFlags(s.tables, entries, added)
    requires AcceptAll(d, s, entries).Done? && AcceptAll(d, s, entries[..i]).Done?
    ensures AcceptAll(d, s, entries).value.meta.lastOrder
         == AcceptAll(d, s, entries[..i]).value.meta.lastOrder + CountTrue(added[i..])
    decreases |entries| - i
  {
    if i == |entries| {
      assert entries[..i] == entries;
    } else {
      var si := AcceptAll(d, s, entries[..i]).value;
      AcceptNext(d, s, entries, i, si);
      SameCheck(d, s, entries, i, si);
      PrefixDone(d, s, entries, i + 1);
      OrdersCountBack(d, s, entries, i + 1, added);
      CountHead(added[i..]);
      assert added[i..][1..] == added[i + 1..];
    }
  }

  lemma PrefixDone(d: Digester, s: Store, entries: seq<Entry>, i: nat)
    requires i <= |entries| && AcceptAll(d, s, entries).Done?
    ensures AcceptAll(d, s, entries[..i]).Done?
  {
    if AcceptAll(d, s, entries[..i]).Failed? {
      FailureStays(d, s, entries, i);
    }
  }

  // ---------------------------------------------------------------------------------------
  // Acknowledgements

  lemma {:induction false} AckFailureStays(s: Store, claims: map<ID, Claim>, tokens: seq<Token>, i: nat)
    requires i <= |tokens| && AckAll(s, claims, tokens[..i]).Failed?
    ensures AckAll(s, claims, tokens) == AckAll(s, claims, tokens[..i])
    decreases |tokens|
  {
    if i < |tokens| {
      assert tokens[..|tokens| - 1][..i] == tokens[..i];
      AckFailureStays(s, claims, tokens[..|tokens| - 1], i);
    } else {
      assert tokens[..i] == tokens;
    }
  }

  lemma AckNext(s: Store, claims: map<ID, Claim>, tokens: seq<Token>, i: nat, si: Store)
    requires i < |tokens| && AckAll(s, claims, tokens[..i]) == Done(si)
    ensures AckAll(s, claims, tokens[..i + 1]) == AckOne(si, claims, tokens[i])
  {
    assert tokens[..i + 1][..i] == tokens[..i];
  }

  /** Acknowledging some tokens completes exactly the pending identities they name. */
  ghost predicate AckedOnly(s: Store, si: Store, claims: map<ID, Claim>, tokens: seq<Token>) {
    && si.meta == s.meta.(counts := si.meta.counts)
    && si.tables.producers == s.tables.producers && si.tables.receipts.Keys == s.tables.receipts.Keys
    && (forall id | id in s.tables.receipts ::
          || si.tables.receipts[id] == s.tables.receipts[id]
          || (&& s.tables.receipts[id].state.Pending?
              && id in claims && claims[id].token in tokens && claims[id].token.id == id
              && si.tables.receipts[id] == s.tables.receipts[id].(state := Acked(claims[id].token))))
    && (forall id | id in si.tables.receipts && si.tables.receipts[id].state.Pending? ::
          (id in si.tables.payloads <==> id in s.tables.payloads)
          && (id in s.tables.payloads ==> si.tables.payloads[id] == s.tables.payloads[id]))
  }

  lemma {:induction false} AckOnly(s: Store, claims: map<ID, Claim>, tokens: seq<Token>)
    requires AckAll(s, claims, tokens).Done?
    ensures AckedOnly(s, AckAll(s, claims, tokens).value, claims, tokens)
    decreases |tokens|
  {
    if tokens != [] {
      var before := tokens[..|tokens| - 1];
      AckOnly(s, claims, before);
      AckOnlyStep(s, AckAll(s, claims, before).value, claims, before, tokens[|tokens| - 1], AckAll(s, claims, tokens).value);
      assert before + [tokens[|tokens| - 1]] == tokens;
    }
  }

  lemma AckOnlyStep(s: Store, si: Store, claims: map<ID, Claim>, before: seq<Token>, token: Token, s': Store)
    requires AckedOnly(s, si, claims, before) && AckOne(si, claims, token) == Done(s')
    ensures AckedOnly(s, s', claims, before + [token])
  {
  }
}
