/** What waits in the durable queue is what was submitted, over whole lives of the queue. */
module DurablePayloads {
  import opened DurableTables
  import opened DurableCommands
  import opened DurableExecution
  import opened DurableQueue
  import opened DurableGroups
  import opened DurableSessions
  import opened DurableEffects

  /** An identity that waits before and after has the same receipt and payload. */
  ghost predicate SameWaiting(t: Tables, t': Tables) {
    forall id | IsPending(t, id) && IsPending(t', id) :: SameRow(t, t', id)
  }

  predicate SameRow(t: Tables, t': Tables, id: ID)
    requires id in t.receipts && id in t'.receipts
  {
    && t'.receipts[id] == t.receipts[id]
    && (id in t.payloads <==> id in t'.payloads) && (id in t.payloads ==> t'.payloads[id] == t.payloads[id])
  }

  lemma SubmitSame(d: Digester, s: Store, entries: seq<Entry>, s': Store)
    requires Sound(d, s) && DistinctIds(entries) && SubmitAll(d, s, entries) == Done(s')
    ensures SameWaiting(s.tables, s'.tables)
  {
    SubmitMeans(d, s, entries);
    hide Sound, FaultFree, MetaStored, Homed;
    forall id | IsPending(s.tables, id) && IsPending(s'.tables, id) ensures SameRow(s.tables, s'.tables, id) {
      if Mentioned(entries, id) {
        var i :| 0 <= i < |entries| && entries[i].id == id;
        assert Kept(d, s, entries, s', i);
      } else {
        assert SameAt(s, s', id);
      }
    }
  }

  lemma AckSame(d: Digester, s: Store, claims: map<ID, Claim>, tokens: seq<Token>, s': Store)
    requires Sound(d, s) && s.meta.epoch > 0 && AckAll(s, claims, tokens) == Done(s')
    ensures SameWaiting(s.tables, s'.tables)
  {
    AckMeans(d, s, claims, tokens);
    hide Sound, Acceptable, AckAll;
    forall id | IsPending(s.tables, id) && IsPending(s'.tables, id) ensures SameRow(s.tables, s'.tables, id) {
      assert !Named(tokens, id);
      assert SameAt(s, s', id);
    }
  }

  lemma ExecuteSame(d: Digester, s: Store, claims: map<ID, Claim>, c: Command, s': Store)
    requires Sound(d, s) && s.meta.epoch > 0 && Legal(s.meta.policy, c) && Execute(d, s, claims, c) == Done(s')
    ensures SameWaiting(s.tables, s'.tables)
  {
    hide Sound;
    match c
    case Submit(entries) => SubmitSame(d, s, entries, s');
    case Ack(tokens) => AckSame(d, s, claims, tokens, s');
    case RetireThrough(id) => RetireMeans(d, s, id);
  }

  lemma SameOnward(a: Tables, b: Tables, c: Tables)
    requires Onward(b, c) && Onward(a, b) && SameWaiting(a, b) && SameWaiting(b, c)
    ensures SameWaiting(a, c)
  {
    forall id | IsPending(a, id) && IsPending(c, id) ensures SameRow(a, c, id) {
      StillPending(a, b, c, id);
    }
  }

  /** What waits before and after waits in between. */
  lemma StillPending(a: Tables, b: Tables, c: Tables, id: ID)
    requires Onward(a, b) && Onward(b, c) && IsPending(a, id) && IsPending(c, id)
    ensures IsPending(b, id)
  {
    if !IsPending(b, id) {
      assert IsAcked(b, id, b.receipts[id].state.token);
      assert false;
    }
  }

  lemma {:induction false} GroupSame(d: Digester, s: Store, claims: map<ID, Claim>, cmds: seq<Command>)
    requires Sound(d, s) && s.meta.epoch > 0 && (forall i | 0 <= i < |cmds| :: Legal(s.meta.policy, cmds[i]))
    requires forall id | id in claims :: IsPending(s.tables, id)
    ensures SameWaiting(s.tables, RunGroup(d, s, claims, cmds).0.tables)
    decreases |cmds|
  {
    hide Sound, Legal, Onward;
    if cmds != [] {
      var before, c := cmds[..|cmds| - 1], cmds[|cmds| - 1];
      GroupSame(d, s, claims, before);
      GroupKeeps(d, s, claims, before);
      GroupOnward(d, s, claims, before);
      var s1 := RunGroup(d, s, claims, before).0;
      var last := Execute(d, s1, claims, c);
      hide Execute, SameWaiting;
      if last.Done? {
        ExecuteSame(d, s1, claims, c, last.value);
        ExecuteOnward(d, s1, claims, c, last.value);
        SameOnward(s.tables, s1.tables, last.value.tables);
      }
    }
  }

  lemma StepSame(d: Digester, s: Session, x: Action, s': Session)
    requires Inv(d, s) && Enabled(d, s, x) && s' == Apply(d, s, x)
    ensures SameWaiting(s.store.tables, s'.store.tables)
  {
    hide Sound, IssuedInv, CompletedInv, RunGroup;
    match x {
      case Commit(cmds) => GroupSame(d, s.store, s.claims, cmds);
      case CleanupTurn(p, limit, rows) => CleanSame(s.store, p, rows, s'.store);
      case _ =>
    }
  }

  lemma CleanSame(s: Store, p: nat, rows: set<ID>, s': Store)
    requires rows <= Removable(s.tables, p) && p in s.tables.producers
    requires rows <= s.tables.receipts.Keys && |rows| <= s.meta.counts.receipts && s.meta.counts.cleanupMarkers > 0
    requires s' == Clean(s, p, rows)
    ensures SameWaiting(s.tables, s'.tables)
  {
  }

  /** Waiting is a pending receipt, in a sound store. */
  lemma WaitingIsPending(d: Digester, s: Store, id: ID)
    requires Sound(d, s)
    ensures IsPending(s.tables, id) <==> Lookup(s.tables, id) == Waiting
    ensures IsPending(s.tables, id) ==> id in s.tables.payloads
  {
    if id in s.tables.receipts {
      assert ReceiptOk(d, s, id);
    }
  }

  /** While an identity waits its receipt and payload stay what they were, over commands, cleanups and reopenings. */
  lemma {:induction false} PayloadKept(d: Digester, run: seq<Session>, i: nat, j: nat, id: ID)
    requires Run(d, run) && i <= j < |run|
    requires IsPending(run[i].store.tables, id) && IsPending(run[j].store.tables, id)
    ensures SameRow(run[i].store.tables, run[j].store.tables, id)
    decreases j
  {
    hide Inv, Enabled, Apply;
    if i < j {
      RunInv(d, run, j - 1);
      assert Next(d, run[j - 1], run[j - 1 + 1]);
      var x :| Enabled(d, run[j - 1], x) && run[j] == Apply(d, run[j - 1], x);
      StepSame(d, run[j - 1], x, run[j]);
      PendingBetween(d, run, i, j, id);
      PayloadKept(d, run, i, j - 1, id);
    }
  }

  lemma PendingBetween(d: Digester, run: seq<Session>, i: nat, j: nat, id: ID)
    requires Run(d, run) && i < j < |run|
    requires IsPending(run[i].store.tables, id) && IsPending(run[j].store.tables, id)
    ensures IsPending(run[j - 1].store.tables, id)
  {
    hide Sound, Lookup, Init, Next, IsPending, Rank, Validated;
    var a, b, c := run[i].store, run[j - 1].store, run[j].store;
    AlwaysSound(d, run, i);
    AlwaysSound(d, run, j - 1);
    AlwaysSound(d, run, j);
    StatusMonotone(d, run, i, j - 1, id);
    StatusMonotone(d, run, j - 1, j, id);
    BetweenPending(d, a, b, c, id);
  }

  lemma BetweenPending(d: Digester, a: Store, b: Store, c: Store, id: ID)
    requires Sound(d, a) && Sound(d, b) && Sound(d, c) && IsPending(a.tables, id) && IsPending(c.tables, id)
    requires Rank(Lookup(a.tables, id)) <= Rank(Lookup(b.tables, id)) <= Rank(Lookup(c.tables, id))
    ensures IsPending(b.tables, id)
  {
    hide Sound, Lookup, IsPending;
    WaitingIsPending(d, a, id);
    WaitingIsPending(d, b, id);
    WaitingIsPending(d, c, id);
  }

  // ---------------------------------------------------------------------------------------
  // Where a payload comes from

  /** One of the commands submits this payload under this identity. */
  ghost predicate Submits(cmds: seq<Command>, id: ID, payload: Payload) {
    exists k :: 0 <= k < |cmds| && SubmitsIn(cmds[k], id, payload)
  }

  predicate SubmitsIn(c: Command, id: ID, payload: Payload) {
    c.Submit? && Entry(id, payload.codec, payload.body) in c.entries
  }

  lemma ExecuteNew(d: Digester, s: Store, claims: map<ID, Claim>, c: Command, s': Store, id: ID)
    requires Sound(d, s) && s.meta.epoch > 0 && Legal(s.meta.policy, c) && Execute(d, s, claims, c) == Done(s')
    requires IsPending(s'.tables, id) && !IsPending(s.tables, id)
    ensures id in s'.tables.payloads && SubmitsIn(c, id, s'.tables.payloads[id])
  {
    hide Sound, Lookup;
    match c {
      case Submit(entries) =>
        SubmitMeans(d, s, entries);
        hide FaultFree, MetaStored, Homed;
        assert Mentioned(entries, id);
        var i :| 0 <= i < |entries| && entries[i].id == id;
        assert Kept(d, s, entries, s', i);
        assert entries[i] == Entry(id, entries[i].codec, entries[i].body);
      case Ack(tokens) =>
        AckOnward(s, claims, tokens);
        assert false;
      case RetireThrough(r) =>
        RetireMeans(d, s, r);
        assert false;
    }
  }

  lemma {:induction false} GroupNew(d: Digester, s: Store, claims: map<ID, Claim>, cmds: seq<Command>, id: ID)
    requires Sound(d, s) && s.meta.epoch > 0 && (forall i | 0 <= i < |cmds| :: Legal(s.meta.policy, cmds[i]))
    requires forall k | k in claims :: IsPending(s.tables, k)
    requires IsPending(RunGroup(d, s, claims, cmds).0.tables, id) && !IsPending(s.tables, id)
    ensures
      var t := RunGroup(d, s, claims, cmds).0.tables;
      id in t.payloads && Submits(cmds, id, t.payloads[id])
    decreases |cmds|
  {
    hide Sound, Legal, Onward, SubmitsIn;
    var before, c := cmds[..|cmds| - 1], cmds[|cmds| - 1];
    GroupKeeps(d, s, claims, before);
    var s1 := RunGroup(d, s, claims, before).0;
    var last := Execute(d, s1, claims, c);
    hide Execute;
    if IsPending(s1.tables, id) {
      GroupNew(d, s, claims, before, id);
      var k :| 0 <= k < |before| && SubmitsIn(before[k], id, s1.tables.payloads[id]);
      assert cmds[k] == before[k];
      if last.Done? {
        ExecuteSame(d, s1, claims, c, last.value);
      }
    } else {
      ExecuteNew(d, s1, claims, c, last.value, id);
      assert cmds[|cmds| - 1] == c;
    }
  }

  /** Everything that waits was submitted, as it is stored, by a command of an earlier commit. */
  lemma {:induction false} WaitingWasSubmitted(d: Digester, run: seq<Session>, j: nat, id: ID)
    returns (i: nat, cmds: seq<Command>)
    requires Run(d, run) && j < |run| && IsPending(run[j].store.tables, id)
    ensures i < j && Enabled(d, run[i], Commit(cmds)) && run[i + 1] == Apply(d, run[i], Commit(cmds))
    ensures id in run[j].store.tables.payloads && Submits(cmds, id, run[j].store.tables.payloads[id])
  {
    hide Inv, Submits, RunGroup, Enabled, Apply, Sound, Lookup;
    assert j > 0 by { hide *; NoneFirst(d, run, id); }
    hide Init;
    RunInv(d, run, j - 1);
    assert Next(d, run[j - 1], run[j - 1 + 1]);
    var x :| Enabled(d, run[j - 1], x) && run[j] == Apply(d, run[j - 1], x);
    AlwaysSound(d, run, j);
    WaitingIsPending(d, run[j].store, id);
    if IsPending(run[j - 1].store.tables, id) {
      i, cmds := WaitingWasSubmitted(d, run, j - 1, id);
      StepSame(d, run[j - 1], x, run[j]);
    } else {
      i := j - 1;
      cmds := CommitNew(d, run[i], x, run[j], id);
    }
  }

  lemma NoneFirst(d: Digester, run: seq<Session>, id: ID)
    requires Run(d, run)
    ensures |run| > 0 && !IsPending(run[0].store.tables, id)
  {
  }

  lemma CommitNew(d: Digester, s: Session, x: Action, s': Session, id: ID) returns (cmds: seq<Command>)
    requires Inv(d, s) && Enabled(d, s, x) && s' == Apply(d, s, x)
    requires IsPending(s'.store.tables, id) && !IsPending(s.store.tables, id)
    ensures x == Commit(cmds) && id in s'.store.tables.payloads && Submits(cmds, id, s'.store.tables.payloads[id])
  {
    hide Sound, IssuedInv, CompletedInv, RunGroup, Submits;
    match x {
      case Commit(c) =>
        cmds := c;
        GroupNew(d, s.store, s.claims, c, id);
      case CleanupTurn(p, _, rows) =>
        CleanupReceipts(s.store, p, rows, s'.store);
        assert false;
      case _ =>
        assert false;
    }
  }
}
