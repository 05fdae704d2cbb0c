/** No entry of the durable queue is ever stuck: from every state of every run a waiting one can be delivered and
    completed by the session that is open. */
module DurableProgress {
  import opened DurableTables
  import opened DurableCommands
  import opened DurableQueue
  import opened DurableGroups
  import opened DurableSessions
  import opened DurableEffects

  function Last(run: seq<Session>): Session
    requires |run| > 0
  {
    run[|run| - 1]
  }

  lemma Does(d: Digester, run: seq<Session>, x: Action) returns (run': seq<Session>)
    requires Run(d, run) && Enabled(d, Last(run), x)
    ensures Run(d, run') && |run'| == |run| + 1 && run <= run' && Last(run') == Apply(d, Last(run), x)
  {
    hide Enabled, Apply, Init;
    run' := run + [Apply(d, Last(run), x)];
    forall i | 0 <= i < |run'| - 1 ensures Next(d, run'[i], run'[i + 1]) {
      if i < |run| - 1 {
        assert Next(d, run[i], run[i + 1]);
      }
    }
  }

  /** The identity is claimed in the session that is open, and its delivery has been received. */
  predicate Received(s: Session, id: ID) {
    id in s.claims && s.claims[id].acquired
  }

  lemma ClaimedToken(d: Digester, s: Session, id: ID)
    requires Inv(d, s) && Received(s, id)
    ensures Acceptable(s.store, s.claims, s.claims[id].token) && s.claims[id].token.id == id
    ensures Lookup(s.store.tables, id) == Waiting
  {
    hide Sound, CompletedInv;
    var token := s.claims[id].token;
    var k :| 0 <= k < |s.issued| && s.issued[k] == token;
    assert s.issued[k].uuid == s.store.meta.uuid;
    PendingWaits(d, s.store, id);
  }

  lemma PendingWaits(d: Digester, s: Store, id: ID)
    requires Sound(d, s) && IsPending(s.tables, id)
    ensures Lookup(s.tables, id) == Waiting
  {
    assert ReceiptOk(d, s, id);
  }

  /** `id` is done, every other identity is as it was, and no attempt was needed beyond those counted. */
  ghost predicate Finished(s: Session, id: ID, s': Session) {
    && Lookup(s'.store.tables, id) == Acknowledged && id !in s'.claims
    && (forall k | k != id :: SameAt(s.store, s'.store, k))
    && s'.store.meta.epoch == s.store.meta.epoch && s.lastAttempt <= s'.lastAttempt <= s.lastAttempt + 1
  }

  /** A group of one acknowledgement that is applied. */
  lemma CommitAck(d: Digester, s: Session, token: Token, store: Store, s': Session)
    requires Enabled(d, s, Commit([Ack([token])])) && s' == Apply(d, s, Commit([Ack([token])]))
    requires AckAll(s.store, s.claims, [token]) == Done(store) && CurrentClaim(s.claims, token)
    ensures s'.store == store && token.id !in s'.claims && s'.lastAttempt == s.lastAttempt
    ensures s'.completed == s.completed + Completions(s.store.tables, store.tables)
  {
    hide Enabled, AckAll, Completions, ClearAcked;
    var cmds := [Ack([token])];
    RunNext(d, s.store, s.claims, cmds, 0);
    assert cmds[..0] == [] && cmds[..1] == cmds;
    assert RunGroup(d, s.store, s.claims, cmds[..0]) == (s.store, []);
    assert Execute(d, s.store, s.claims, cmds[0]) == Done(store);
    assert RunGroup(d, s.store, s.claims, cmds).0 == store && RunGroup(d, s.store, s.claims, cmds).1 == [] + [Applied];
    assert [] + [Applied] == [Applied];
    hide RunGroup;
    ClearsAcked(s.claims, token);
  }

  lemma ClearsAcked(claims: map<ID, Claim>, token: Token)
    requires CurrentClaim(claims, token)
    ensures token.id !in ClearAcked(claims, [Ack([token])], [Applied])
  {
  }

  /** What acknowledging one acceptable token leaves in the store. */
  lemma AckLeaves(d: Digester, s: Store, claims: map<ID, Claim>, token: Token) returns (store: Store)
    requires Sound(d, s) && s.meta.epoch > 0 && Acceptable(s, claims, token) && Lookup(s.tables, token.id) == Waiting
    ensures AckAll(s, claims, [token]) == Done(store) && store.meta.epoch == s.meta.epoch
    ensures Lookup(store.tables, token.id) == Acknowledged && IsAcked(store.tables, token.id, token)
    ensures forall k | k != token.id :: SameAt(s, store, k)
  {
    hide Acceptable, Lookup, AckAll, Sound;
    AckMeans(d, s, claims, [token]);
    assert Acceptable(s, claims, [token][0]);
    store := AckAll(s, claims, [token]).value;
    assert CompletedBy(s, [token][0], store);
    forall k | k != token.id ensures SameAt(s, store, k) {
      assert !Named([token], k);
    }
  }

  /** A received delivery is completed by acknowledging its token, which ends its claim. */
  lemma AckCompletes(d: Digester, s: Session, id: ID, s': Session)
    requires Inv(d, s) && s.store.meta.epoch > 0 && Received(s, id)
    requires Enabled(d, s, Commit([Ack([s.claims[id].token])])) && s' == Apply(d, s, Commit([Ack([s.claims[id].token])]))
    ensures Finished(s, id, s') && s'.lastAttempt == s.lastAttempt && s.claims[id].token in s'.completed
  {
    var token := s.claims[id].token;
    ClaimedToken(d, s, id);
    assert !IsAcked(s.store.tables, id, token) by { hide Apply, Enabled, Sound; }
    hide Inv, Enabled, Acceptable, Lookup, AckAll, Sound, Apply, SameAt;
    SessionSound(d, s);
    var store := AckLeaves(d, s.store, s.claims, token);
    CommitAck(d, s, token, store, s');
  }

  /** Deliver: a new attempt for an unclaimed identity. Receive: the claim of an identity is acquired. */
  lemma Receives(d: Digester, run: seq<Session>, id: ID) returns (run': seq<Session>)
    requires Run(d, run) && Last(run).store.meta.epoch > 0 && IsPending(Last(run).store.tables, id)
    requires id in Last(run).claims || Last(run).lastAttempt < MAX_IDENTITY
    ensures Run(d, run') && run <= run' && |run'| <= |run| + 2 && Received(Last(run'), id)
    ensures Last(run').store == Last(run).store
    ensures Last(run).lastAttempt <= Last(run').lastAttempt <= Last(run).lastAttempt + 1
  {
    hide Init;
    run' := run;
    if id !in Last(run).claims {
      run' := Does(d, run, Dispatch(id));
    }
    if !Last(run').claims[id].acquired {
      run' := Does(d, run', Acquire(id));
    }
  }

  /** A waiting identity can be completed within three steps of the open session, whatever happened before. */
  lemma NeverStuck(d: Digester, run: seq<Session>, id: ID) returns (run': seq<Session>)
    requires Run(d, run) && Last(run).store.meta.epoch > 0 && IsPending(Last(run).store.tables, id)
    requires id in Last(run).claims || Last(run).lastAttempt < MAX_IDENTITY
    ensures Run(d, run') && run <= run' && |run'| <= |run| + 3 && Finished(Last(run), id, Last(run'))
  {
    hide Init, Finished, Inv, Apply;
    var ready := Receives(d, run, id);
    var s := Last(ready);
    RunInv(d, ready, |ready| - 1);
    assert Legal(s.store.meta.policy, [Ack([s.claims[id].token])][0]);
    run' := Does(d, ready, Commit([Ack([s.claims[id].token])]));
    AckCompletes(d, s, id, Last(run'));
    FinishedFrom(Last(run), s, id, Last(run'));
  }

  lemma FinishedFrom(a: Session, b: Session, id: ID, c: Session)
    requires b.store == a.store && a.lastAttempt <= b.lastAttempt <= a.lastAttempt + 1 && Finished(b, id, c)
    requires c.lastAttempt == b.lastAttempt
    ensures Finished(a, id, c)
  {
  }

  /** What waits. */
  ghost function Waits(s: Session): set<ID> {
    PendingIds(s.store.tables.receipts)
  }

  lemma OneFewer(s: Session, id: ID, s': Session)
    requires Finished(s, id, s') && id in Waits(s)
    ensures Waits(s') == Waits(s) - {id} && |Waits(s')| < |Waits(s)|
    ensures s'.store.meta.epoch == s.store.meta.epoch && s'.lastAttempt <= s.lastAttempt + 1
  {
    forall k ensures k in Waits(s') <==> k in Waits(s) && k != id {
      if k != id {
        assert SameAt(s.store, s'.store, k);
      }
    }
    assert |Waits(s) - {id}| == |Waits(s)| - 1;
  }

  /** The whole queue can be drained by the session that is open: everything that waited is completed, and every
      other status is as it was. */
  lemma {:induction false} Drains(d: Digester, run: seq<Session>) returns (run': seq<Session>)
    requires Run(d, run) && Last(run).store.meta.epoch > 0
    requires Last(run).lastAttempt + |Waits(Last(run))| <= MAX_IDENTITY
    ensures Run(d, run') && run <= run' && |run'| <= |run| + 3 * |Waits(Last(run))| && Waits(Last(run')) == {}
    ensures forall k ::
      Lookup(Last(run').store.tables, k) == if k in Waits(Last(run)) then Acknowledged else Lookup(Last(run).store.tables, k)
    decreases |Waits(Last(run))|
  {
    hide Run, Lookup, Finished;
    run' := run;
    assert |run| > 0 by { hide *; StartsSomewhere(d, run); }
    if Waits(Last(run)) != {} {
      var id :| id in Waits(Last(run));
      var next := NeverStuck(d, run, id);
      OneFewer(Last(run), id, Last(next));
      run' := Drains(d, next);
      forall k ensures
          Lookup(Last(run').store.tables, k)
          == if k in Waits(Last(run)) then Acknowledged else Lookup(Last(run).store.tables, k)
      {
        FinishedStatus(Last(run), id, Last(next), k);
      }
    }
  }

  lemma StartsSomewhere(d: Digester, run: seq<Session>)
    requires Run(d, run)
    ensures |run| > 0
  {
  }

  lemma FinishedStatus(s: Session, id: ID, s': Session, k: ID)
    requires Finished(s, id, s')
    ensures Lookup(s'.store.tables, k) == if k == id then Acknowledged else Lookup(s.store.tables, k)
  {
    if k != id {
      assert SameAt(s.store, s'.store, k);
    }
  }
}
