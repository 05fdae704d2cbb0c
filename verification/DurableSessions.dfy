/** Whole lives of a durable queue: sessions that dispatch, acknowledge, release and clean up, ended at
    any moment and reopened in a new epoch. A transaction that does not commit leaves no step. */
module DurableSessions {
  import opened DurableTables
  import opened DurableCommands
  import opened DurableQueue
  import opened DurableGroups

  /** `issued` and `completed` are history: every token handed out, in order, and every token that
      completed its identity. */
  datatype Session = Session(
    store: Store, claims: map<ID, Claim>, lastAttempt: nat, issued: seq<Token>, completed: set<Token>)

  datatype Action =
    | Open
    | Dispatch(id: ID)
    | Acquire(id: ID)
    | Drop(id: ID)
    | Release(token: Token)
    | Commit(cmds: seq<Command>)
    | CleanupTurn(producer: nat, limit: nat, rows: set<ID>)

  ghost predicate Init(s: Session) {
    && s.store.tables == Tables(map[], map[], map[])
    && s.store.meta.epoch == 0 && s.store.meta.lastOrder == 0 && s.store.meta.counts == Counts(0, 0, 0, 0, 0, 0)
    && s.claims == map[] && s.lastAttempt == 0 && s.issued == [] && s.completed == {}
  }

  function NextToken(s: Session, id: ID): Token {
    Token(s.store.meta.uuid, s.store.meta.epoch, id, s.lastAttempt + 1)
  }

  /** Tokens of receipts that were acknowledged between two states of the tables. */
  ghost function Completions(t: Tables, t': Tables): set<Token> {
    set id | id in t'.receipts && t'.receipts[id].state.Acked? && !IsAcked(t, id, t'.receipts[id].state.token)
      :: t'.receipts[id].state.token
  }

  ghost predicate Enabled(d: Digester, s: Session, x: Action) {
    match x
    case Open => s.store.meta.epoch < MAX_IDENTITY
    case Dispatch(id) => IsPending(s.store.tables, id) && id !in s.claims && s.lastAttempt < MAX_IDENTITY
    case Acquire(id) => id in s.claims && !s.claims[id].acquired
    case Drop(id) => id in s.claims && !s.claims[id].acquired
    case Release(token) => true
    case Commit(cmds) => s.store.meta.epoch > 0 && forall i | 0 <= i < |cmds| :: Legal(s.store.meta.policy, cmds[i])
    case CleanupTurn(p, limit, rows) =>
      && Chosen(s.store.tables, p, limit, rows)
      && rows <= s.store.tables.receipts.Keys && p in s.store.tables.producers
      && |rows| <= s.store.meta.counts.receipts && s.store.meta.counts.cleanupMarkers > 0
  }

  ghost function Apply(d: Digester, s: Session, x: Action): Session
    requires Enabled(d, s, x)
  {
    match x
    case Open =>
      s.(store := s.store.(meta := s.store.meta.(epoch := s.store.meta.epoch + 1)), claims := map[], lastAttempt := 0)
    case Dispatch(id) =>
      s.(claims := s.claims[id := Claim(NextToken(s, id), false)],
         lastAttempt := s.lastAttempt + 1,
         issued := s.issued + [NextToken(s, id)])
    case Acquire(id) => s.(claims := s.claims[id := s.claims[id].(acquired := true)])
    case Drop(id) => s.(claims := s.claims - {id})
    case Release(token) =>
      if ThisSession(s.store.meta, token) && CurrentClaim(s.claims, token) then s.(claims := s.claims - {token.id}) else s
    case Commit(cmds) =>
      var (store, results) := RunGroup(d, s.store, s.claims, cmds);
      s.(store := store,
         claims := if |results| == |cmds| then ClearAcked(s.claims, cmds, results) else s.claims,
         completed := s.completed + Completions(s.store.tables, store.tables))
    case CleanupTurn(p, limit, rows) => s.(store := Clean(s.store, p, rows))
  }

  ghost predicate Run(d: Digester, run: seq<Session>) {
    && |run| > 0 && Init(run[0])
    && forall i | 0 <= i < |run| - 1 :: Next(d, run[i], run[i + 1])
  }

  ghost predicate Next(d: Digester, s: Session, s': Session) {
    exists x :: Enabled(d, s, x) && s' == Apply(d, s, x)
  }

  // ---------------------------------------------------------------------------------------
  // The invariant

  /** Every claim is the latest attempt of a pending identity in this epoch. */
  ghost predicate ClaimsInv(s: Session) {
    forall id | id in s.claims ::
      && IsPending(s.store.tables, id) && s.claims[id].token in s.issued && s.claims[id].token.id == id
      && s.claims[id].token.epoch == s.store.meta.epoch
  }

  predicate Earlier(a: Token, b: Token) {
    a.epoch < b.epoch || (a.epoch == b.epoch && a.attempt < b.attempt)
  }

  ghost predicate IssuedInv(s: Session) {
    && (forall i | 0 <= i < |s.issued| ::
          && s.issued[i].uuid == s.store.meta.uuid && 0 < s.issued[i].attempt
          && s.issued[i].epoch <= s.store.meta.epoch
          && (s.issued[i].epoch == s.store.meta.epoch ==> s.issued[i].attempt <= s.lastAttempt))
    && (forall i, j | 0 <= i < j < |s.issued| :: Earlier(s.issued[i], s.issued[j]))
  }

  /** A completed identity is past pending for good, and its receipt, while kept, names its token. */
  ghost predicate CompletedInv(s: Session) {
    && (forall token | token in s.completed ::
          && token in s.issued && Rank(Lookup(s.store.tables, token.id)) >= 2
          && (token.id in s.store.tables.receipts ==> IsAcked(s.store.tables, token.id, token)))
    && (forall id | id in s.store.tables.receipts && s.store.tables.receipts[id].state.Acked? ::
          s.store.tables.receipts[id].state.token in s.completed)
  }

  ghost predicate Inv(d: Digester, s: Session) {
    Sound(d, s.store) && ClaimsInv(s) && IssuedInv(s) && CompletedInv(s)
  }

  /** What no step undoes. */
  ghost predicate Forward(s: Session, s': Session) {
    && (forall id :: Rank(Lookup(s.store.tables, id)) <= Rank(Lookup(s'.store.tables, id)))
    && s.issued <= s'.issued && s.completed <= s'.completed
    && s.store.meta.epoch <= s'.store.meta.epoch && s.store.meta.uuid == s'.store.meta.uuid
  }

  lemma InitInv(d: Digester, s: Session)
    requires Init(s)
    ensures Inv(d, s)
  {
    assert PendingIds(s.store.tables.receipts) == {};
    assert RetiredProducers(s.store.tables.producers) == {} && MarkedProducers(s.store.tables.producers) == {};
  }

  lemma OpenInv(d: Digester, s: Session, s': Session)
    requires Inv(d, s) && Enabled(d, s, Open) && s' == Apply(d, s, Open)
    ensures Inv(d, s') && Forward(s, s')
  {
    assert Sound(d, s'.store) by {
      forall id | id in s'.store.tables.receipts ensures ReceiptOk(d, s'.store, id) {
        assert ReceiptOk(d, s.store, id);
      }
    }
  }

  lemma DispatchInv(d: Digester, s: Session, x: Action, s': Session)
    requires Inv(d, s) && x.Dispatch? && Enabled(d, s, x) && s' == Apply(d, s, x)
    ensures Inv(d, s') && Forward(s, s')
  {
    hide Sound, Lookup, Rank, IssuedInv;
    IssueNext(s, x.id, s');
    assert s'.issued[|s.issued|] == NextToken(s, x.id);
    forall token | token in s.issued ensures token in s'.issued {
    }
  }

  lemma IssueNext(s: Session, id: ID, s': Session)
    requires IssuedInv(s) && s'.store == s.store && s'.lastAttempt == s.lastAttempt + 1
    requires s'.issued == s.issued + [NextToken(s, id)]
    ensures IssuedInv(s')
  {
  }

  lemma ClaimInv(d: Digester, s: Session, x: Action, s': Session)
    requires Inv(d, s) && (x.Acquire? || x.Drop? || x.Release?) && Enabled(d, s, x) && s' == Apply(d, s, x)
    ensures Inv(d, s') && Forward(s, s')
  {
    hide Sound, Lookup, Rank, ThisSession, CurrentClaim;
  }

  lemma CleanupInv(d: Digester, s: Session, x: Action, s': Session)
    requires Inv(d, s) && x.CleanupTurn? && Enabled(d, s, x) && s' == Apply(d, s, x)
    ensures Inv(d, s') && Forward(s, s')
  {
    assert x.producer in MarkedProducers(s.store.tables.producers) && x.rows <= Removable(s.store.tables, x.producer);
    hide Sound, Chosen, MarkedProducers, Lookup, Clean, Removable, ClaimsInv, CompletedInv, Forward;
    CleanKeeps(d, s.store, x.producer, x.rows, s'.store);
    CleanupStatus(s.store, x.producer, x.rows, s'.store);
    CleanupReceipts(s.store, x.producer, x.rows, s'.store);
    CleanupSession(s, s');
  }

  lemma CleanupSession(s: Session, s': Session)
    requires ClaimsInv(s) && IssuedInv(s) && CompletedInv(s) && s' == s.(store := s'.store)
    requires forall id :: Lookup(s'.store.tables, id) == Lookup(s.store.tables, id)
    requires forall id | IsPending(s.store.tables, id) :: IsPending(s'.store.tables, id)
    requires forall id | id in s'.store.tables.receipts ::
      id in s.store.tables.receipts && s'.store.tables.receipts[id] == s.store.tables.receipts[id]
    requires s'.store.meta.epoch == s.store.meta.epoch && s'.store.meta.uuid == s.store.meta.uuid
    ensures ClaimsInv(s') && IssuedInv(s') && CompletedInv(s') && Forward(s, s')
  {
    hide Lookup;
  }

  lemma CleanupReceipts(s: Store, p: nat, rows: set<ID>, s': Store)
    requires rows <= Removable(s.tables, p) && p in s.tables.producers
    requires rows <= s.tables.receipts.Keys && |rows| <= s.meta.counts.receipts && s.meta.counts.cleanupMarkers > 0
    requires s' == Clean(s, p, rows)
    ensures forall id | IsPending(s.tables, id) :: IsPending(s'.tables, id)
    ensures forall id | id in s'.tables.receipts :: id in s.tables.receipts && s'.tables.receipts[id] == s.tables.receipts[id]
    ensures s'.meta.epoch == s.meta.epoch && s'.meta.uuid == s.meta.uuid
  {
  }

  /** Cleaning up changes no status: what it removes already reads as retired. */
  lemma CleanupStatus(s: Store, p: nat, rows: set<ID>, s': Store)
    requires rows <= Removable(s.tables, p) && p in s.tables.producers
    requires rows <= s.tables.receipts.Keys && |rows| <= s.meta.counts.receipts && s.meta.counts.cleanupMarkers > 0
    requires s' == Clean(s, p, rows)
    ensures forall id :: Lookup(s'.tables, id) == Lookup(s.tables, id)
  {
    forall id ensures Lookup(s'.tables, id) == Lookup(s.tables, id) {
      assert AtFloor(s'.tables, id) <==> AtFloor(s.tables, id);
    }
  }

  lemma CommitInv(d: Digester, s: Session, cmds: seq<Command>, s': Session)
    requires Inv(d, s) && Enabled(d, s, Commit(cmds)) && s' == Apply(d, s, Commit(cmds))
    ensures Inv(d, s') && Forward(s, s')
  {
    hide Sound, RunGroup, ClearAcked, Onward;
    GroupKeeps(d, s.store, s.claims, cmds);
    GroupIsSequential(d, s.store, s.claims, cmds);
    GroupOnward(d, s.store, s.claims, cmds);
    CommitClaims(s, s');
    CommitCompleted(d, s, s');
    OnwardRanks(s.store.tables, s'.store.tables);
  }

  lemma OnwardRanks(t: Tables, t': Tables)
    requires Onward(t, t')
    ensures forall id :: Rank(Lookup(t, id)) <= Rank(Lookup(t', id))
  {
  }

  lemma CommitClaims(s: Session, s': Session)
    requires ClaimsInv(s) && s'.issued == s.issued && SameSession(s.store, s'.store)
    requires ClaimsFollow(s'.store.tables, s.claims, s'.claims)
    ensures ClaimsInv(s')
  {
  }

  lemma CommitCompleted(d: Digester, s: Session, s': Session)
    requires Inv(d, s) && Sound(d, s'.store) && s'.issued == s.issued
    requires Onward(s.store.tables, s'.store.tables) && ByClaim(s.store.tables, s'.store.tables, s.claims)
    requires s'.completed == s.completed + Completions(s.store.tables, s'.store.tables)
    ensures CompletedInv(s')
  {
    var t, t' := s.store.tables, s'.store.tables;
    hide Sound;
    forall token | token in s'.completed
      ensures token in s'.issued && Rank(Lookup(t', token.id)) >= 2 && (token.id in t'.receipts ==> IsAcked(t', token.id, token))
    {
      if token in s.completed {
        CompletedStays(d, s, s', token);
      } else {
        var id :| id in t'.receipts && t'.receipts[id].state == Acked(token) && !IsAcked(t, id, token);
        assert IsAcked(t', id, token);
        AckedRank(d, s'.store, id);
      }
    }
    forall id | id in t'.receipts && t'.receipts[id].state.Acked? ensures t'.receipts[id].state.token in s'.completed {
      if IsAcked(t, id, t'.receipts[id].state.token) {
        assert t'.receipts[id].state.token in s.completed;
      }
    }
  }

  lemma AckedRank(d: Digester, s: Store, id: ID)
    requires Sound(d, s) && id in s.tables.receipts && s.tables.receipts[id].state.Acked?
    ensures Rank(Lookup(s.tables, id)) >= 2
  {
    assert ReceiptOk(d, s, id);
  }

  lemma CompletedStays(d: Digester, s: Session, s': Session, token: Token)
    requires Inv(d, s) && Onward(s.store.tables, s'.store.tables) && token in s.completed && s'.issued == s.issued
    ensures token in s'.issued && Rank(Lookup(s'.store.tables, token.id)) >= 2
    ensures token.id in s'.store.tables.receipts ==> IsAcked(s'.store.tables, token.id, token)
  {
    var t, t' := s.store.tables, s'.store.tables;
    assert Rank(Lookup(t, token.id)) <= Rank(Lookup(t', token.id));
    if token.id !in t.receipts {
      assert AtFloor(t, token.id);
    }
  }

  lemma StepInv(d: Digester, s: Session, x: Action, s': Session)
    requires Inv(d, s) && Enabled(d, s, x) && s' == Apply(d, s, x)
    ensures Inv(d, s') && Forward(s, s')
  {
    hide Inv, Forward, Enabled, Apply;
    match x
    case Open => OpenInv(d, s, s');
    case Commit(cmds) => CommitInv(d, s, cmds, s');
    case CleanupTurn(_, _, _) => CleanupInv(d, s, x, s');
    case Dispatch(_) => DispatchInv(d, s, x, s');
    case _ => ClaimInv(d, s, x, s');
  }

  lemma {:induction false} RunInv(d: Digester, run: seq<Session>, i: nat)
    requires Run(d, run) && i < |run|
    ensures Inv(d, run[i])
  {
    hide Inv, Init, Enabled, Apply;
    if i == 0 {
      InitInv(d, run[0]);
    } else {
      RunInv(d, run, i - 1);
      assert Next(d, run[i - 1], run[i - 1 + 1]);
      var x :| Enabled(d, run[i - 1], x) && run[i] == Apply(d, run[i - 1], x);
      StepInv(d, run[i - 1], x, run[i]);
    }
  }

  lemma {:induction false} RunForward(d: Digester, run: seq<Session>, i: nat, j: nat)
    requires Run(d, run) && i <= j < |run|
    ensures Forward(run[i], run[j])
  {
    hide Inv, Init, Enabled, Apply, Lookup;
    if i < j {
      RunForward(d, run, i, j - 1);
      RunInv(d, run, j - 1);
      assert Next(d, run[j - 1], run[j - 1 + 1]);
      var x :| Enabled(d, run[j - 1], x) && run[j] == Apply(d, run[j - 1], x);
      StepInv(d, run[j - 1], x, run[j]);
      ForwardTransitive(run[i], run[j - 1], run[j]);
    }
  }

  lemma ForwardTransitive(a: Session, b: Session, c: Session)
    requires Forward(a, b) && Forward(b, c)
    ensures Forward(a, c)
  {
    hide Lookup, Rank;
    forall id ensures Rank(Lookup(a.store.tables, id)) <= Rank(Lookup(c.store.tables, id)) {
      assert Rank(Lookup(a.store.tables, id)) <= Rank(Lookup(b.store.tables, id)) <= Rank(Lookup(c.store.tables, id));
    }
  }

  // ---------------------------------------------------------------------------------------
  // Promises over whole runs

  /** Every committed state of every run passes the startup validator. */
  lemma AlwaysSound(d: Digester, run: seq<Session>, i: nat)
    requires Run(d, run) && i < |run|
    ensures Sound(d, run[i].store) && Validated(d, run[i].store)
  {
    RunInv(d, run, i);
    hide Inv;
    SessionSound(d, run[i]);
    ValidatorExact(d, run[i].store);
  }

  lemma SessionSound(d: Digester, s: Session)
    requires Inv(d, s)
    ensures Sound(d, s.store) && OrdersUnique(s.store.tables)
  {
  }

  /** A status only moves from Absent over Waiting and Acknowledged to Retired. */
  lemma StatusMonotone(d: Digester, run: seq<Session>, i: nat, j: nat, id: ID)
    requires Run(d, run) && i <= j < |run|
    ensures Rank(Lookup(run[i].store.tables, id)) <= Rank(Lookup(run[j].store.tables, id))
  {
    RunForward(d, run, i, j);
  }

  /** No token is ever handed out twice, in one session or across epochs. */
  lemma TokensDistinct(d: Digester, run: seq<Session>, i: nat, a: nat, b: nat)
    requires Run(d, run) && i < |run| && a < b < |run[i].issued|
    ensures run[i].issued[a] != run[i].issued[b]
  {
    RunInv(d, run, i);
  }

  /** At most one token ever completes an identity. */
  lemma OneCompletion(d: Digester, run: seq<Session>, i: nat, j: nat, a: Token, b: Token)
    requires Run(d, run) && i <= j < |run| && a in run[i].completed && b in run[j].completed && a.id == b.id
    ensures a == b
  {
    RunForward(d, run, i, j);
    OneAtATime(d, run, j, a, b);
  }

  /** Two tokens of one identity complete in the same state only if they are the same: neither can be
      the later one. */
  lemma {:induction false} OneAtATime(d: Digester, run: seq<Session>, j: nat, a: Token, b: Token)
    requires Run(d, run) && j < |run| && a in run[j].completed && b in run[j].completed && a.id == b.id
    ensures a == b
  {
    hide Inv, Enabled, Apply;
    if j > 0 {
      hide Init;
      RunInv(d, run, j - 1);
      RunInv(d, run, j);
      assert Next(d, run[j - 1], run[j - 1 + 1]);
      var x :| Enabled(d, run[j - 1], x) && run[j] == Apply(d, run[j - 1], x);
      if a in run[j - 1].completed && b in run[j - 1].completed {
        OneAtATime(d, run, j - 1, a, b);
      } else {
        NewlyStored(d, run[j - 1], x, run[j], a, b);
      }
    }
  }

  /** When one of two completions of an identity is new, its receipt is stored and names both. */
  lemma NewlyStored(d: Digester, s: Session, x: Action, s': Session, a: Token, b: Token)
    requires Inv(d, s) && Inv(d, s') && Enabled(d, s, x) && s' == Apply(d, s, x)
    requires a in s'.completed && b in s'.completed && a.id == b.id
    requires a !in s.completed || b !in s.completed
    ensures a == b
  {
    hide Sound, RunGroup, ClearAcked, IssuedInv, ClaimsInv;
    var c := if a !in s.completed then a else b;
    assert x.Commit? && c in Completions(s.store.tables, s'.store.tables);
    assert c.id in s'.store.tables.receipts by { CompletionStored(d, s'.store, s.store.tables, c); }
  }

  lemma CompletionStored(d: Digester, s': Store, t: Tables, token: Token)
    requires Sound(d, s') && token in Completions(t, s'.tables)
    ensures token.id in s'.tables.receipts
  {
    var id :| id in s'.tables.receipts && s'.tables.receipts[id].state == Acked(token);
    assert ReceiptOk(d, s', id);
  }

  /** The token is the one its identity is claimed with. */
  ghost predicate Holds(s: Session, token: Token) {
    token.id in s.claims && s.claims[token.id].token == token
  }

  /** Fencing: a token that is handed out and no longer claimed never completes anything, in this
      session or a later one. */
  lemma {:induction false} Fenced(d: Digester, run: seq<Session>, i: nat, j: nat, token: Token)
    requires Run(d, run) && i <= j < |run| && token in run[i].issued && token !in run[i].completed
    requires !Holds(run[i], token)
    ensures token !in run[j].completed && token in run[j].issued && !Holds(run[j], token)
  {
    hide Inv, Init, Apply, Enabled;
    if i < j {
      Fenced(d, run, i, j - 1, token);
      RunInv(d, run, j - 1);
      assert Next(d, run[j - 1], run[j - 1 + 1]);
      var x :| Enabled(d, run[j - 1], x) && run[j] == Apply(d, run[j - 1], x);
      FencedStep(d, run[j - 1], x, run[j], token);
    }
  }

  lemma FencedStep(d: Digester, s: Session, x: Action, s': Session, token: Token)
    requires Inv(d, s) && Enabled(d, s, x) && s' == Apply(d, s, x)
    requires token in s.issued && token !in s.completed && !Holds(s, token)
    ensures token in s'.issued && token !in s'.completed && !Holds(s', token)
  {
    if x.Commit? {
      FencedCommit(d, s, x.cmds, s', token);
    } else {
      hide Sound, CompletedInv, ClaimsInv;
    }
  }

  lemma FencedCommit(d: Digester, s: Session, cmds: seq<Command>, s': Session, token: Token)
    requires Inv(d, s) && Enabled(d, s, Commit(cmds)) && s' == Apply(d, s, Commit(cmds))
    requires token in s.issued && token !in s.completed && !Holds(s, token)
    ensures token in s'.issued && token !in s'.completed && !Holds(s', token)
  {
    hide Sound, RunGroup, ClearAcked, Onward;
    GroupKeeps(d, s.store, s.claims, cmds);
    GroupIsSequential(d, s.store, s.claims, cmds);
    GroupOnward(d, s.store, s.claims, cmds);
    CompletionClaimed(s.store.tables, s'.store.tables, s.claims, token);
  }

  lemma CompletionClaimed(t: Tables, t': Tables, claims: map<ID, Claim>, token: Token)
    requires ByClaim(t, t', claims)
    ensures token in Completions(t, t') ==> CurrentClaim(claims, token)
  {
    if token in Completions(t, t') {
      var id :| id in t'.receipts && t'.receipts[id].state == Acked(token) && !IsAcked(t, id, token);
      assert IsAcked(t', id, token);
    }
  }

  /** Released tokens, and all tokens of earlier epochs, are not claimed, so they are fenced. */
  lemma ReleasedAndOldUnclaimed(d: Digester, run: seq<Session>, i: nat, token: Token)
    requires Run(d, run) && i < |run|
    ensures token.epoch != run[i].store.meta.epoch ==> !Holds(run[i], token)
    ensures ThisSession(run[i].store.meta, token) && CurrentClaim(run[i].claims, token) ==>
      !Holds(Apply(d, run[i], Release(token)), token)
  {
    RunInv(d, run, i);
  }
}
