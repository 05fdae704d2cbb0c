/** A committed group is its commands run one by one. */
module DurableGroups {
  import opened DurableTables
  import opened DurableCommands
  import opened DurableExecution
  import opened DurableQueue

  // ---------------------------------------------------------------------------------------
  // What a command does to receipts and statuses

  predicate IsPending(t: Tables, id: ID) {
    id in t.receipts && t.receipts[id].state.Pending?
  }

  predicate IsAcked(t: Tables, id: ID, token: Token) {
    id in t.receipts && t.receipts[id].state == Acked(token)
  }

  /** No status goes back, an acknowledged receipt keeps its token, nothing pending disappears, and
      nothing comes back once retired and removed. */
  ghost predicate Onward(t: Tables, t': Tables) {
    && (forall id :: Rank(Lookup(t, id)) <= Rank(Lookup(t', id)))
    && (forall id, token | IsAcked(t, id, token) :: IsAcked(t', id, token))
    && (forall id | IsPending(t, id) :: id in t'.receipts)
    && (forall id | AtFloor(t, id) && id !in t.receipts :: id !in t'.receipts)
  }

  /** Every receipt acknowledged since was pending and was completed by its current claim. */
  ghost predicate ByClaim(t: Tables, t': Tables, claims: map<ID, Claim>) {
    forall id, token | IsAcked(t', id, token) && !IsAcked(t, id, token) ::
      IsPending(t, id) && token.id == id && CurrentClaim(claims, token)
  }

  lemma OnwardTransitive(a: Tables, b: Tables, c: Tables)
    requires Onward(a, b) && Onward(b, c)
    ensures Onward(a, c)
  {
    forall id ensures Rank(Lookup(a, id)) <= Rank(Lookup(c, id)) {
      assert Rank(Lookup(a, id)) <= Rank(Lookup(b, id)) <= Rank(Lookup(c, id));
    }
    forall id | IsPending(a, id) ensures id in c.receipts {
      if !IsPending(b, id) {
        assert IsAcked(b, id, b.receipts[id].state.token);
      }
    }
    forall id | AtFloor(a, id) && id !in a.receipts ensures id !in c.receipts {
      assert Rank(Lookup(a, id)) <= Rank(Lookup(b, id));
    }
  }

  lemma ByClaimTransitive(a: Tables, b: Tables, c: Tables, claims: map<ID, Claim>)
    requires ByClaim(a, b, claims) && ByClaim(b, c, claims)
    requires forall id | IsPending(b, id) && id in claims :: IsPending(a, id)
    ensures ByClaim(a, c, claims)
  {
  }

  lemma InsertOnward(d: Digester, s: Store, e: Entry)
    requires AcceptOne(d, s, e).Done?
    ensures Onward(s.tables, AcceptOne(d, s, e).value.tables)
  {
    var t, t' := s.tables, AcceptOne(d, s, e).value.tables;
    forall id ensures Rank(Lookup(t, id)) <= Rank(Lookup(t', id)) {
    }
  }

  lemma {:induction false} AcceptOnward(d: Digester, s: Store, entries: seq<Entry>)
    requires AcceptAll(d, s, entries).Done?
    ensures Onward(s.tables, AcceptAll(d, s, entries).value.tables)
    ensures forall id, token | IsAcked(AcceptAll(d, s, entries).value.tables, id, token) :: IsAcked(s.tables, id, token)
    decreases |entries|
  {
    if entries != [] {
      var before, e := entries[..|entries| - 1], entries[|entries| - 1];
      AcceptOnward(d, s, before);
      var s1 := AcceptAll(d, s, before).value;
      InsertOnward(d, s1, e);
      hide AcceptAll, Onward;
      OnwardTransitive(s.tables, s1.tables, AcceptOne(d, s1, e).value.tables);
    }
  }

  lemma AckOneOnward(s: Store, claims: map<ID, Claim>, token: Token, s': Store)
    requires AckOne(s, claims, token) == Done(s')
    ensures Onward(s.tables, s'.tables) && ByClaim(s.tables, s'.tables, claims)
    ensures IsAcked(s'.tables, token.id, token)
    ensures forall id | IsPending(s'.tables, id) :: IsPending(s.tables, id)
  {
  }

  lemma {:induction false} AckOnward(s: Store, claims: map<ID, Claim>, tokens: seq<Token>)
    requires AckAll(s, claims, tokens).Done?
    ensures
      var t' := AckAll(s, claims, tokens).value.tables;
      && Onward(s.tables, t') && ByClaim(s.tables, t', claims)
      && (forall token | token in tokens :: IsAcked(t', token.id, token))
      && (forall id | IsPending(t', id) :: IsPending(s.tables, id))
    decreases |tokens|
  {
    if tokens != [] {
      var before, token := tokens[..|tokens| - 1], tokens[|tokens| - 1];
      AckOnward(s, claims, before);
      var s1, s' := AckAll(s, claims, before).value, AckAll(s, claims, tokens).value;
      AckOneOnward(s1, claims, token, s');
      OnwardTransitive(s.tables, s1.tables, s'.tables);
      ByClaimTransitive(s.tables, s1.tables, s'.tables, claims);
      forall u | u in tokens ensures IsAcked(s'.tables, u.id, u) {
        if u in before {
          assert IsAcked(s1.tables, u.id, u);
        } else {
          assert u == token;
        }
      }
    }
  }

  lemma RetireOnward(d: Digester, s: Store, id: ID)
    requires Sound(d, s) && RetireOne(s, id).Done?
    ensures Onward(s.tables, RetireOne(s, id).value.tables)
    ensures RetireOne(s, id).value.tables.receipts == s.tables.receipts
  {
    var t, t' := s.tables, RetireOne(s, id).value.tables;
    forall k ensures Rank(Lookup(t, k)) <= Rank(Lookup(t', k)) {
    }
  }

  /** A claim that some of these tokens complete. */
  predicate Completing(claims: map<ID, Claim>, tokens: seq<Token>, id: ID) {
    id in claims && claims[id].acquired && claims[id].token in tokens && claims[id].token.id == id
  }

  lemma AckCompletes(s: Store, claims: map<ID, Claim>, tokens: seq<Token>, id: ID)
    requires AckAll(s, claims, tokens).Done? && IsPending(s.tables, id)
    ensures IsPending(AckAll(s, claims, tokens).value.tables, id) || Completing(claims, tokens, id)
  {
    AckOnly(s, claims, tokens);
    AckOnward(s, claims, tokens);
    var t' := AckAll(s, claims, tokens).value.tables;
    assert id in t'.receipts;
    if !IsPending(t', id) {
      assert IsAcked(t', id, t'.receipts[id].state.token);
    }
  }

  /** What a successful command may have done. */
  lemma ExecuteOnward(d: Digester, s: Store, claims: map<ID, Claim>, c: Command, s': Store)
    requires Sound(d, s) && Execute(d, s, claims, c) == Done(s')
    ensures Onward(s.tables, s'.tables) && ByClaim(s.tables, s'.tables, claims)
    ensures c.Ack? ==> forall token | token in c.tokens :: IsAcked(s'.tables, token.id, token)
    ensures forall id | IsPending(s.tables, id) :: IsPending(s'.tables, id) || (c.Ack? && Completing(claims, c.tokens, id))
  {
    match c
    case Submit(entries) =>
      AcceptOnward(d, s, entries);
      forall id | IsPending(s.tables, id) ensures IsPending(s'.tables, id) {
        if !IsPending(s'.tables, id) {
          assert IsAcked(s'.tables, id, s'.tables.receipts[id].state.token);
        }
      }
    case Ack(tokens) =>
      AckOnward(s, claims, tokens);
      forall id | IsPending(s.tables, id) ensures IsPending(s'.tables, id) || Completing(claims, tokens, id) {
        AckCompletes(s, claims, tokens, id);
      }
    case RetireThrough(id) => RetireOnward(d, s, id);
  }

  // ---------------------------------------------------------------------------------------
  // Groups

  /** The claims of a group: the ones still there are unchanged and pending, the others completed. */
  ghost predicate ClaimsFollow(t: Tables, claims: map<ID, Claim>, left: map<ID, Claim>) {
    && (forall id | id in left :: id in claims && left[id] == claims[id] && IsPending(t, id))
    && (forall id | id in claims && id !in left :: IsAcked(t, id, claims[id].token))
  }

  lemma ClaimsStep(d: Digester, s: Store, claims: map<ID, Claim>, left: map<ID, Claim>, c: Command, s': Store)
    requires Sound(d, s) && ClaimsFollow(s.tables, claims, left) && Execute(d, s, left, c) == Done(s')
    ensures ClaimsFollow(s'.tables, claims, if c.Ack? then ClearTokens(left, c.tokens) else left)
  {
    ExecuteOnward(d, s, left, c, s');
  }

  /** A claim that is gone is of a completed identity, so it decides nothing any more. */
  lemma {:induction false} SameAcks(s: Store, claims: map<ID, Claim>, left: map<ID, Claim>, tokens: seq<Token>)
    requires ClaimsFollow(s.tables, claims, left)
    ensures AckAll(s, left, tokens) == AckAll(s, claims, tokens)
    decreases |tokens|
  {
    if tokens != [] {
      var before, token := tokens[..|tokens| - 1], tokens[|tokens| - 1];
      SameAcks(s, claims, left, before);
      if AckAll(s, claims, before).Done? {
        var s1 := AckAll(s, claims, before).value;
        AckOnward(s, claims, before);
        hide AckAll;
        assert IsPending(s1.tables, token.id) ==> IsPending(s.tables, token.id);
        assert AckOne(s1, left, token) == AckOne(s1, claims, token);
      }
    }
  }

  /** The commands one at a time, each its own transaction, claims dropped after each. */
  ghost function RunSequential(d: Digester, s: Store, claims: map<ID, Claim>, cmds: seq<Command>)
    : (Store, map<ID, Claim>, seq<Decision>)
    decreases |cmds|
  {
    if cmds == [] then (s, claims, [])
    else
      var before, c := RunSequential(d, s, claims, cmds[..|cmds| - 1]), cmds[|cmds| - 1];
      var last := Execute(d, before.0, before.1, c);
      if last.Failed? then (before.0, before.1, before.2 + [NotApplied(last.error)])
      else (last.value, if c.Ack? then ClearTokens(before.1, c.tokens) else before.1, before.2 + [Applied])
  }

  /** Grouping is invisible: same store, same claims, same decisions as one command at a time. */
  lemma {:induction false} GroupIsSequential(d: Digester, s: Store, claims: map<ID, Claim>, cmds: seq<Command>)
    requires Sound(d, s) && s.meta.epoch > 0 && (forall i | 0 <= i < |cmds| :: Legal(s.meta.policy, cmds[i]))
    requires forall id | id in claims :: IsPending(s.tables, id)
    ensures
      var (store, results) := RunGroup(d, s, claims, cmds);
      && |results| == |cmds|
      && RunSequential(d, s, claims, cmds) == (store, ClearAcked(claims, cmds, results), results)
      && ClaimsFollow(store.tables, claims, ClearAcked(claims, cmds, results))
    decreases |cmds|
  {
    hide Sound, Legal, ClaimsFollow;
    GroupKeeps(d, s, claims, cmds);
    if cmds == [] {
      NoneFollow(s.tables, claims);
    } else {
      var before, c := cmds[..|cmds| - 1], cmds[|cmds| - 1];
      GroupIsSequential(d, s, claims, before);
      GroupKeeps(d, s, claims, before);
      var (s1, r1) := RunGroup(d, s, claims, before);
      var left := ClearAcked(claims, before, r1);
      SameExecution(d, s1, claims, left, c);
      var last := Execute(d, s1, claims, c);
      hide Execute;
      var results := RunGroup(d, s, claims, cmds).1;
      assert results[..|cmds| - 1] == r1;
      if last.Done? {
        ClaimsStep(d, s1, claims, left, c, last.value);
      }
    }
  }

  lemma NoneFollow(t: Tables, claims: map<ID, Claim>)
    requires forall id | id in claims :: IsPending(t, id)
    ensures ClaimsFollow(t, claims, claims)
  {
  }

  lemma SameExecution(d: Digester, s: Store, claims: map<ID, Claim>, left: map<ID, Claim>, c: Command)
    requires ClaimsFollow(s.tables, claims, left)
    ensures Execute(d, s, left, c) == Execute(d, s, claims, c)
  {
    if c.Ack? {
      SameAcks(s, claims, left, c.tokens);
    }
  }

  lemma {:induction false} GroupOnward(d: Digester, s: Store, claims: map<ID, Claim>, cmds: seq<Command>)
    requires Sound(d, s) && s.meta.epoch > 0 && (forall i | 0 <= i < |cmds| :: Legal(s.meta.policy, cmds[i]))
    requires forall id | id in claims :: IsPending(s.tables, id)
    ensures Onward(s.tables, RunGroup(d, s, claims, cmds).0.tables)
    ensures ByClaim(s.tables, RunGroup(d, s, claims, cmds).0.tables, claims)
    decreases |cmds|
  {
    hide Sound, Legal, Onward;
    if cmds == [] {
      SameOnward(s.tables);
    } else {
      var before, c := cmds[..|cmds| - 1], cmds[|cmds| - 1];
      GroupOnward(d, s, claims, before);
      GroupKeeps(d, s, claims, before);
      GroupIsSequential(d, s, claims, before);
      var s1 := RunGroup(d, s, claims, before).0;
      var last := Execute(d, s1, claims, c);
      hide Execute;
      if last.Failed? {
        SameOnward(s1.tables);
      } else {
        ExecuteOnward(d, s1, claims, c, last.value);
        OnwardTransitive(s.tables, s1.tables, last.value.tables);
        ByClaimTransitive(s.tables, s1.tables, last.value.tables, claims);
      }
    }
  }

  lemma SameOnward(t: Tables)
    ensures Onward(t, t)
  {
  }
}
