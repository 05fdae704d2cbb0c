/** The worker's buffers: payloads, outcomes and retry metadata in parallel arrays, compacted in place. */
module RunnerHeld {
  import opened RunnerRetry

  /** What some terminal outcomes add to the counters. */
  datatype Delta = Delta(succeeded: nat, failed: nat, abandoned: nat, attempts: nat)

  const NONE := Delta(0, 0, 0, 0)

  function OutcomeDelta(o: Outcome): Delta {
    match o.state
    case Succeeded => Delta(1, 0, 0, o.attempts)
    case Failed => Delta(0, 1, 0, o.attempts)
    case Abandoned => Delta(0, 0, 1, o.attempts)
  }

  function Add(a: Delta, b: Delta): Delta {
    Delta(a.succeeded + b.succeeded, a.failed + b.failed, a.abandoned + b.abandoned, a.attempts + b.attempts)
  }

  function Tally<T>(finals: seq<Final<T>>): Delta {
    if finals == [] then NONE else Add(Tally(finals[..|finals| - 1]), OutcomeDelta(finals[|finals| - 1].outcome))
  }

  /** Every terminal outcome is counted once, under one of the three states. */
  lemma {:induction false} TallyTotal<T>(finals: seq<Final<T>>)
    ensures Tally(finals).succeeded + Tally(finals).failed + Tally(finals).abandoned == |finals|
  {
    if finals != [] {
      TallyTotal(finals[..|finals| - 1]);
    }
  }

  ghost function Ending<T>(finals: seq<Final<T>>, state: Terminal): set<nat> {
    set i: nat | i < |finals| && finals[i].outcome.state == state
  }

  /** Each counter is the number of terminal outcomes of its state. */
  lemma {:induction false} TallyCounts<T>(finals: seq<Final<T>>)
    ensures Tally(finals).succeeded == |Ending(finals, Succeeded)|
    ensures Tally(finals).failed == |Ending(finals, Failed)|
    ensures Tally(finals).abandoned == |Ending(finals, Abandoned)|
  {
    if finals == [] {
      assert Ending(finals, Succeeded) == {} && Ending(finals, Failed) == {} && Ending(finals, Abandoned) == {};
    } else {
      var n := |finals| - 1;
      TallyCounts(finals[..n]);
      EndingLast(finals, Succeeded);
      EndingLast(finals, Failed);
      EndingLast(finals, Abandoned);
      hide Ending;
    }
  }

  lemma EndingLast<T>(finals: seq<Final<T>>, state: Terminal)
    requires finals != []
    ensures
      var n := |finals| - 1;
      |Ending(finals, state)| == |Ending(finals[..n], state)| + if finals[n].outcome.state == state then 1 else 0
  {
    var n, front := |finals| - 1, finals[..|finals| - 1];
    forall i: nat ensures i in Ending(finals, state) <==> i in Ending(front, state) || (i == n && finals[n].outcome.state == state) {
      assert i < n ==> front[i] == finals[i];
    }
    EndingGrows(Ending(front, state), Ending(finals, state), n, finals[n].outcome.state == state);
  }

  lemma EndingGrows(a: set<nat>, b: set<nat>, n: nat, more: bool)
    requires n !in a && forall i: nat :: i in b <==> i in a || (i == n && more)
    ensures |b| == |a| + if more then 1 else 0
  {
    assert b == if more then a + {n} else a;
  }

  lemma TallyPush<T>(finals: seq<Final<T>>, f: Final<T>)
    ensures Tally(finals + [f]) == Add(Tally(finals), OutcomeDelta(f.outcome))
  {
    assert (finals + [f])[..|finals|] == finals;
  }

  /** The rows of an aborted batch end as they are. */
  function Dropped<T>(rows: seq<Row<T>>): (finals: seq<Final<T>>)
    ensures |finals| == |rows|
  {
    seq(|rows|, i requires 0 <= i < |rows| =>
      Final(rows[i].item, Outcome(Abandoned, rows[i].meta.attempts, AbandonErr(rows[i].meta, true))))
  }

  lemma {:induction false} DroppedItems<T>(rows: seq<Row<T>>)
    ensures FinalItems(Dropped(rows)) == Items(rows)
  {
    if rows != [] {
      var n := |rows| - 1;
      DroppedItems(rows[..n]);
      assert Dropped(rows)[..n] == Dropped(rows[..n]);
    }
  }

  ghost predicate Limited<T>(finals: seq<Final<T>>, limit: nat) {
    forall i | 0 <= i < |finals| :: finals[i].outcome.attempts <= limit
  }

  lemma {:induction false} EndedLimited<T>(rows: seq<Row<T>>, outcomes: seq<Outcome>, limit: nat)
    requires forall i | 0 <= i < |outcomes| :: outcomes[i].attempts <= limit
    ensures Limited(Ended(rows, outcomes), limit)
    decreases |rows|
  {
    if rows != [] {
      EndedLimited(rows[..|rows| - 1], outcomes, limit);
    }
  }

  lemma {:induction false} FinalItemsConcat<T>(a: seq<Final<T>>, b: seq<Final<T>>)
    ensures FinalItems(a + b) == FinalItems(a) + FinalItems(b)
  {
    if b == [] {
      assert a + b == a;
    } else {
      var n := |b| - 1;
      FinalItemsConcat(a, b[..n]);
      assert (a + b)[..|a| + n] == a + b[..n];
    }
  }

  lemma InvokedAt<T>(rows: seq<Row<T>>, due: nat, round: Round, limit: nat, i: nat)
    requires i < due <= |rows|
    ensures InvokedRows(rows, due, round, limit)[i] == rows[i].(meta := Invoked(rows[i].meta, round, due, i, limit).0)
    ensures OutcomesOf(rows, due, round, limit)[i] == Invoked(rows[i].meta, round, due, i, limit).1
  {
    hide Invoked;
  }

  lemma InvokedRest<T>(rows: seq<Row<T>>, due: nat, round: Round, limit: nat, i: nat)
    requires due <= i < |rows|
    ensures InvokedRows(rows, due, round, limit)[i] == rows[i]
  {
    hide Invoked;
  }

  // ---------------------------------------------------------------------------------------
  // Why an item ends

  /** The answer of a round ends an item that had attempts to spare with this outcome. */
  predicate DecidedBy(outcome: Outcome, meta: Meta, round: Round, due: nat, i: nat, limit: nat) {
    && i < due && meta.attempts < limit
    && Invoked(meta, round, due, i, limit).1 == outcome && !Invoked(meta, round, due, i, limit).0.pending
  }

  /** The outcome was decided by the answer of some round, or the item was dropped at an abort, with an error. */
  ghost predicate Explained<T>(f: Final<T>, env: nat -> Round, limit: nat) {
    || (f.outcome.state == Abandoned && f.outcome.err != 0 && exists k: nat :: env(k).aborted || env(k).cut)
    || exists k: nat, meta, due, i :: DecidedBy(f.outcome, meta, env(k), due, i, limit)
  }

  ghost predicate AllExplained<T>(finals: seq<Final<T>>, env: nat -> Round, limit: nat) {
    forall f | f in finals :: Explained(f, env, limit)
  }

  /** No answer reports anything but success, and no abort is seen. */
  ghost predicate Smooth(env: nat -> Round) {
    forall k: nat :: env(k).answer.NoAnswer? && !env(k).aborted && !env(k).cut
  }

  ghost predicate AllSucceeded<T>(finals: seq<Final<T>>) {
    forall f | f in finals :: f.outcome == Outcome(Succeeded, 1, 0)
  }

  ghost predicate Untried<T>(rows: seq<Row<T>>) {
    forall i | 0 <= i < |rows| :: rows[i].meta.attempts == 0
  }

  lemma {:induction false} EndedFrom<T>(rows: seq<Row<T>>, outcomes: seq<Outcome>, f: Final<T>) returns (i: nat)
    requires f in Ended(rows, outcomes)
    ensures i < |rows| && i < |outcomes| && !rows[i].meta.pending && f == Final(rows[i].item, outcomes[i])
    decreases |rows|
  {
    var n := |rows| - 1;
    if f in Ended(rows[..n], outcomes) {
      i := EndedFrom(rows[..n], outcomes, f);
    } else {
      i := n;
    }
  }

  lemma RoundExplained<T>(rows: seq<Row<T>>, due: nat, env: nat -> Round, k: nat, limit: nat)
    requires due <= |rows| && Spare(rows, limit)
    ensures AllExplained(Ended(InvokedRows(rows, due, env(k), limit), OutcomesOf(rows, due, env(k), limit)), env, limit)
  {
    var after, outcomes := InvokedRows(rows, due, env(k), limit), OutcomesOf(rows, due, env(k), limit);
    forall f | f in Ended(after, outcomes) ensures Explained(f, env, limit) {
      var i := EndedFrom(after, outcomes, f);
      InvokedAt(rows, due, env(k), limit, i);
      hide Ended, InvokedRows, OutcomesOf, Invoked;
      assert DecidedBy(f.outcome, rows[i].meta, env(k), due, i, limit);
    }
  }

  lemma DroppedExplained<T>(rows: seq<Row<T>>, env: nat -> Round, k: nat, limit: nat)
    requires env(k).aborted || env(k).cut
    ensures AllExplained(Dropped(rows), env, limit)
  {
  }

  lemma ExplainedConcat<T>(a: seq<Final<T>>, b: seq<Final<T>>, env: nat -> Round, limit: nat)
    requires AllExplained(a, env, limit) && AllExplained(b, env, limit)
    ensures AllExplained(a + b, env, limit)
  {
    hide Explained;
  }

  /** In a smooth run the first round ends everything. */
  lemma SmoothRound<T>(rows: seq<Row<T>>, due: nat, env: nat -> Round, k: nat, limit: nat)
    requires due == |rows| && Smooth(env) && Untried(rows)
    ensures Kept(InvokedRows(rows, due, env(k), limit), due) == []
    ensures AllSucceeded(Ended(InvokedRows(rows, due, env(k), limit), OutcomesOf(rows, due, env(k), limit)))
  {
    var after, outcomes := InvokedRows(rows, due, env(k), limit), OutcomesOf(rows, due, env(k), limit);
    forall i | 0 <= i < due ensures !after[i].meta.pending && outcomes[i] == Outcome(Succeeded, 1, 0) {
      InvokedAt(rows, due, env(k), limit, i);
      OutcomeWhen(rows[i].meta, env(k), due, i, limit);
    }
    hide InvokedRows, OutcomesOf;
    NoneKept(after, due);
    forall f | f in Ended(after, outcomes) ensures f.outcome == Outcome(Succeeded, 1, 0) {
      var i := EndedFrom(after, outcomes, f);
    }
  }

  /** What holds between two rounds. In a smooth run nothing is held after the first. */
  ghost predicate Going<T>(
      all: multiset<T>, rows: seq<Row<T>>, due: nat, ends: seq<Final<T>>, env: nat -> Round, limit: nat) {
    && Spare(rows, limit) && Limited(ends, limit) && Conserved(all, rows, ends)
    && AllExplained(ends, env, limit) && (Smooth(env) ==> AllSucceeded(ends))
    && (Smooth(env) && rows != [] ==> due == |rows| && Untried(rows) && ends == [])
  }

  lemma GoingIs<T>(all: multiset<T>, rows: seq<Row<T>>, due: nat, ends: seq<Final<T>>, env: nat -> Round, limit: nat)
    requires Going(all, rows, due, ends, env, limit)
    ensures Spare(rows, limit) && Limited(ends, limit) && Conserved(all, rows, ends) && AllExplained(ends, env, limit)
    ensures Smooth(env) && rows != [] ==> due == |rows| && Untried(rows) && ends == []
    ensures rows == [] ==> Going(all, rows, 0, ends, env, limit)
  {
    hide Spare, Limited, Conserved, AllExplained, AllSucceeded, Smooth, Untried;
  }

  lemma GoingStart<T>(rows: seq<Row<T>>, items: seq<T>, env: nat -> Round, limit: nat)
    requires limit > 0 && |rows| == |items| && forall i | 0 <= i < |rows| :: rows[i] == Row(items[i], BLANK)
    ensures Going(multiset(items), rows, |rows|, [], env, limit)
  {
    Start(rows, items, limit);
    NoneExplained<T>(env, limit);
    hide Spare, Limited, Conserved, AllExplained, AllSucceeded, Smooth;
  }

  lemma GoingEnd<T>(all: multiset<T>, rows: seq<Row<T>>, due: nat, ends: seq<Final<T>>, env: nat -> Round, limit: nat)
    requires Going(all, rows, due, ends, env, limit) && rows == []
    ensures Limited(ends, limit) && multiset(FinalItems(ends)) == all
    ensures AllExplained(ends, env, limit) && (Smooth(env) ==> AllSucceeded(ends))
  {
    NoneHeld(rows, ends, all);
    hide Spare, Limited, Conserved, AllExplained, AllSucceeded, Smooth, FinalItems;
  }

  lemma GoingDropped<T>(
      all: multiset<T>, rows: seq<Row<T>>, due: nat, ends: seq<Final<T>>, env: nat -> Round, limit: nat, k: nat)
    requires (env(k).aborted || env(k).cut) && AllExplained(ends, env, limit)
    requires Limited(ends + Dropped(rows), limit) && multiset(FinalItems(ends + Dropped(rows))) == all
    ensures Going(all, [], 0, ends + Dropped(rows), env, limit)
  {
    DropExplained(rows, env, k, limit, ends);
    hide Limited, AllExplained, AllSucceeded, Smooth, FinalItems, Dropped;
    AllOut(all, ends + Dropped(rows), limit);
  }

  lemma AllOut<T>(all: multiset<T>, ends: seq<Final<T>>, limit: nat)
    requires multiset(FinalItems(ends)) == all
    ensures Conserved(all, [], ends) && Spare<T>([], limit)
  {
    assert Items<T>([]) == [];
    hide FinalItems;
  }

  lemma GoingOn<T>(
      all: multiset<T>, rows: seq<Row<T>>, due: nat, ends: seq<Final<T>>, env: nat -> Round, limit: nat, k: nat)
    requires 0 < due <= |rows| && Going(all, rows, due, ends, env, limit)
    ensures
      var after, outcomes := InvokedRows(rows, due, env(k), limit), OutcomesOf(rows, due, env(k), limit);
      && Going(all, Kept(after, due), due, ends + Ended(after, outcomes), env, limit)
      && (Smooth(env) ==> Kept(after, due) == [])
  {
    hide *;
    GoingIs(all, rows, due, ends, env, limit);
    assert Smooth(env) ==> rows != [];
    RoundSays(rows, due, env, k, limit, ends);
    RoundFacts(rows, due, env(k), limit, all, ends);
    var after, outcomes := InvokedRows(rows, due, env(k), limit), OutcomesOf(rows, due, env(k), limit);
    GoingMade(all, Kept(after, due), due, ends + Ended(after, outcomes), env, limit);
  }

  lemma GoingMade<T>(all: multiset<T>, rows: seq<Row<T>>, due: nat, ends: seq<Final<T>>, env: nat -> Round, limit: nat)
    requires Spare(rows, limit) && Limited(ends, limit) && Conserved(all, rows, ends) && AllExplained(ends, env, limit)
    requires Smooth(env) ==> rows == [] && AllSucceeded(ends)
    ensures Going(all, rows, due, ends, env, limit)
  {
    hide Spare, Limited, Conserved, AllExplained, AllSucceeded, Smooth, Untried;
  }

  lemma GoingAwaits<T>(
      all: multiset<T>, rows: seq<Row<T>>, due: nat, ends: seq<Final<T>>, env: nat -> Round, limit: nat,
      rows': seq<Row<T>>, due': nat)
    requires Going(all, rows, due, ends, env, limit) && |rows'| == |rows| > 0 && !Smooth(env)
    requires Spare(rows', limit) && Conserved(all, rows', ends)
    ensures Going(all, rows', due', ends, env, limit)
  {
    hide Spare, Limited, Conserved, AllExplained, AllSucceeded, Smooth, Untried;
  }

  lemma NoneExplained<T>(env: nat -> Round, limit: nat)
    ensures AllExplained<T>([], env, limit) && AllSucceeded<T>([])
  {
  }

  /** What a round adds to the ends, and what it leaves in a smooth run. */
  lemma RoundSays<T>(rows: seq<Row<T>>, due: nat, env: nat -> Round, k: nat, limit: nat, ends: seq<Final<T>>)
    requires due <= |rows| && Spare(rows, limit) && AllExplained(ends, env, limit)
    requires Smooth(env) ==> due == |rows| && Untried(rows) && ends == []
    ensures
      var after, outcomes := InvokedRows(rows, due, env(k), limit), OutcomesOf(rows, due, env(k), limit);
      && AllExplained(ends + Ended(after, outcomes), env, limit)
      && (Smooth(env) ==> Kept(after, due) == [] && AllSucceeded(ends + Ended(after, outcomes)))
  {
    hide *;
    var after, outcomes := InvokedRows(rows, due, env(k), limit), OutcomesOf(rows, due, env(k), limit);
    RoundExplained(rows, due, env, k, limit);
    ExplainedConcat(ends, Ended(after, outcomes), env, limit);
    if Smooth(env) {
      SmoothRound(rows, due, env, k, limit);
      assert ends + Ended(after, outcomes) == Ended(after, outcomes);
    }
  }

  lemma DropExplained<T>(rows: seq<Row<T>>, env: nat -> Round, k: nat, limit: nat, ends: seq<Final<T>>)
    requires (env(k).aborted || env(k).cut) && AllExplained(ends, env, limit)
    ensures AllExplained(ends + Dropped(rows), env, limit) && !Smooth(env)
  {
    hide AllExplained, Dropped;
    DroppedExplained(rows, env, k, limit);
    ExplainedConcat(ends, Dropped(rows), env, limit);
  }

  lemma {:induction false} NoneKept<T>(rows: seq<Row<T>>, due: nat)
    requires |rows| <= due && forall i | 0 <= i < |rows| :: !rows[i].meta.pending
    ensures Kept(rows, due) == []
  {
    if rows != [] {
      NoneKept(rows[..|rows| - 1], due);
    }
  }

  const NO_OUTCOME := Outcome(Succeeded, 0, 0)

  /** Three different arrays, whatever the payload type is. */
  ghost predicate Apart<T>(batch: array<T>, metadata: array<Meta>, outcomes: array<Outcome>) {
    batch as object != metadata as object && batch as object != outcomes as object
  }

  lemma NothingYet<T>(rows: seq<Row<T>>, outcomes: seq<Outcome>)
    ensures Kept(rows[..0], |outcomes|) == [] && Ended(rows[..0], outcomes) == [] && Tally<T>([]) == NONE
  {
    assert rows[..0] == [];
  }

  /** Up to `position`, the rows are split into those kept and those ended, and the ended are counted. */
  ghost predicate Settled<T>(
      rows: seq<Row<T>>, decided: seq<Outcome>, position: nat, kept: seq<Row<T>>, ended: seq<Final<T>>, delta: Delta) {
    && position <= |rows|
    && kept == Kept(rows[..position], |decided|) && ended == Ended(rows[..position], decided) && delta == Tally(ended)
  }

  lemma SettledStart<T>(rows: seq<Row<T>>, decided: seq<Outcome>)
    ensures Settled(rows, decided, 0, [], [], NONE)
  {
    NothingYet(rows, decided);
  }

  lemma SettledStep<T>(
      rows: seq<Row<T>>, decided: seq<Outcome>, position: nat, kept: seq<Row<T>>, ended: seq<Final<T>>, delta: Delta)
    requires Settled(rows, decided, position, kept, ended, delta) && position < |rows|
    ensures
      if position < |decided| && !rows[position].meta.pending then
        Settled(rows, decided, position + 1, kept, ended + [Final(rows[position].item, decided[position])],
                Add(delta, OutcomeDelta(decided[position])))
      else
        Settled(rows, decided, position + 1, kept + [rows[position]], ended, delta)
  {
    hide Kept, Ended, Tally, Add, OutcomeDelta;
    assert rows[..position + 1] == rows[..position] + [rows[position]];
    KeptStep(rows[..position], rows[position], decided);
    if position < |decided| {
      TallyPush(ended, Final(rows[position].item, decided[position]));
    }
  }

  lemma SettledEnd<T>(rows: seq<Row<T>>, decided: seq<Outcome>, kept: seq<Row<T>>, ended: seq<Final<T>>, delta: Delta)
    requires Settled(rows, decided, |rows|, kept, ended, delta)
    ensures kept == Kept(rows, |decided|) && delta == Tally(Ended(rows, decided))
  {
    assert rows[..|rows|] == rows;
  }

  class Held<T> {
    const batch: array<T>
    const metadata: array<Meta>
    const outcomes: array<Outcome>
    const zero: T
    /** The worker's counters, and in order every item it ended with its outcome. */
    var counters: Delta
    ghost var finals: seq<Final<T>>

    constructor (batch: array<T>, metadata: array<Meta>, outcomes: array<Outcome>, zero: T)
      requires metadata.Length == batch.Length == outcomes.Length && Apart(batch, metadata, outcomes)
      ensures this.batch == batch && this.metadata == metadata && this.outcomes == outcomes && this.zero == zero
      ensures Valid() && finals == []
    {
      this.batch, this.metadata, this.outcomes, this.zero := batch, metadata, outcomes, zero;
      counters, finals := NONE, [];
    }

    ghost predicate Valid()
      reads this
    {
      && metadata.Length == batch.Length == outcomes.Length && Apart(batch, metadata, outcomes)
      && counters == Tally(finals)
    }

    ghost function Rows(n: nat): (rows: seq<Row<T>>)
      requires n <= batch.Length && n <= metadata.Length
      reads batch, metadata
      ensures |rows| == n
    {
      seq(n, i requires 0 <= i < n reads batch, metadata => Row(batch[i], metadata[i]))
    }

    /** Nothing is left behind in positions `from` to `to`. */
    ghost predicate Clean(from: nat, to: nat)
      requires metadata.Length == batch.Length == outcomes.Length && to <= batch.Length
      reads batch, metadata, outcomes
    {
      forall i | from <= i < to :: batch[i] == zero && metadata[i] == BLANK && outcomes[i] == NO_OUTCOME
    }

    /** Moves the due items and their metadata to the front, by swaps. */
    method CompactDue(held: nat, now: int) returns (due: nat)
      requires Valid() && held <= batch.Length
      modifies batch, metadata
      ensures due <= held && (Rows(held), due) == Compact(old(Rows(held)), 0, 0, now)
      ensures forall i | held <= i < batch.Length :: batch[i] == old(batch[i]) && metadata[i] == old(metadata[i])
    {
      due := 0;
      for position := 0 to held
        invariant due <= position
        invariant Compact(Rows(held), position, due, now) == Compact(old(Rows(held)), 0, 0, now)
        invariant forall i | held <= i < batch.Length :: batch[i] == old(batch[i]) && metadata[i] == old(metadata[i])
      {
        ghost var rows := Rows(held);
        if metadata[position].due <= now {
          batch[due], batch[position] := batch[position], batch[due];
          metadata[due], metadata[position] := metadata[position], metadata[due];
          assert Rows(held) == Swap(rows, due, position);
          due := due + 1;
        }
      }
    }

    /** Runs the handler over the first `due` items and classifies each answer. */
    method InvokeHeld(held: nat, due: nat, round: Round, limit: nat)
      requires Valid() && due <= held <= batch.Length
      modifies metadata, outcomes
      ensures Rows(held) == InvokedRows(old(Rows(held)), due, round, limit)
      ensures outcomes[..due] == OutcomesOf(old(Rows(held)), due, round, limit)
      ensures forall i | due <= i < batch.Length :: metadata[i] == old(metadata[i]) && outcomes[i] == old(outcomes[i])
    {
      ghost var rows, meta := Rows(held), metadata[..];
      InvokeDue(due, round, limit);
      hide Invoked, InvokedRows, OutcomesOf;
      forall i | 0 <= i < held ensures Rows(held)[i] == InvokedRows(rows, due, round, limit)[i] {
        assert rows[i] == Row(batch[i], meta[i]);
        if i < due {
          InvokedAt(rows, due, round, limit, i);
        } else {
          InvokedRest(rows, due, round, limit, i);
        }
      }
      forall i | 0 <= i < due ensures outcomes[i] == OutcomesOf(rows, due, round, limit)[i] {
        assert rows[i] == Row(batch[i], meta[i]);
        InvokedAt(rows, due, round, limit, i);
      }
    }

    /** The positions after the due ones are not touched. */
    method InvokeDue(due: nat, round: Round, limit: nat)
      requires Valid() && due <= batch.Length
      modifies metadata, outcomes
      ensures forall i | 0 <= i < due ::
        (metadata[i], outcomes[i]) == Invoked(old(metadata[i]), round, due, i, limit)
      ensures forall i | due <= i < batch.Length :: metadata[i] == old(metadata[i]) && outcomes[i] == old(outcomes[i])
    {
      var valid := Validate(round.answer, due, round.aborting);
      assert valid && round.answer.Results? ==> |round.answer.results| == due;
      hide ValidAnswer, Classified, Malformed;
      for position := 0 to due
        invariant forall i | 0 <= i < position ::
          (metadata[i], outcomes[i]) == Invoked(old(metadata[i]), round, due, i, limit)
        invariant forall i | position <= i < batch.Length ::
          metadata[i] == old(metadata[i]) && outcomes[i] == old(outcomes[i])
      {
        var (item, outcome) :=
          if valid then
            Classified(metadata[position], ResultAt(round.answer, position), round.aborting || round.caused(position),
                       round.policy(position), limit, round.clock(position))
          else
            Malformed(metadata[position]);
        assert (item, outcome) == Invoked(metadata[position], round, due, position, limit);
        hide Invoked;
        metadata[position], outcomes[position] := item, outcome;
      }
    }

    /** Ends the items the round decided, closes the gaps they leave, clears what lies behind, and
        publishes their counts. */
    method Settle(held: nat, due: nat) returns (remaining: nat)
      requires Valid() && due <= held <= batch.Length
      modifies this, batch, metadata, outcomes
      ensures Valid() && remaining <= held
      ensures Rows(remaining) == Kept(old(Rows(held)), due)
      ensures finals == old(finals) + Ended(old(Rows(held)), old(outcomes[..due]))
      ensures Clean(remaining, held) && forall i | 0 <= i < held :: outcomes[i] == NO_OUTCOME
      ensures Beyond(held)
    {
      hide Kept, Ended, Tally;
      ghost var ended := Ended(Rows(held), outcomes[..due]);
      var delta;
      remaining, delta := CloseGaps(held, due);
      RestBeyond(held);
      ghost var kept := Rows(remaining);
      ClearBehind(remaining, held);
      assert Rows(remaining) == kept;
      TallyConcat(finals, ended);
      counters, finals := Add(counters, delta), finals + ended;
    }

    /** Everything from position `held` on. */
    ghost function Rest(held: nat): (seq<T>, seq<Meta>, seq<Outcome>)
      requires metadata.Length == batch.Length == outcomes.Length && held <= batch.Length
      reads batch, metadata, outcomes
    {
      (batch[held..], metadata[held..], outcomes[held..])
    }

    /** Nothing from position `held` on has changed. */
    twostate predicate Beyond(held: nat)
      requires metadata.Length == batch.Length == outcomes.Length
      reads batch, metadata, outcomes
    {
      forall i | held <= i < batch.Length ::
        batch[i] == old(batch[i]) && metadata[i] == old(metadata[i]) && outcomes[i] == old(outcomes[i])
    }

    twostate lemma RestBeyond(held: nat)
      requires metadata.Length == batch.Length == outcomes.Length && held <= batch.Length
      requires Rest(held) == old(Rest(held))
      ensures Beyond(held)
    {
      forall i | held <= i < batch.Length
        ensures batch[i] == old(batch[i]) && metadata[i] == old(metadata[i]) && outcomes[i] == old(outcomes[i])
      {
        assert batch[held..][i - held] == batch[i] && old(batch[held..])[i - held] == old(batch[i]);
        assert metadata[held..][i - held] == metadata[i] && old(metadata[held..])[i - held] == old(metadata[i]);
        assert outcomes[held..][i - held] == outcomes[i] && old(outcomes[held..])[i - held] == old(outcomes[i]);
      }
    }

    twostate lemma BeyondRest(held: nat)
      requires metadata.Length == batch.Length == outcomes.Length && held <= batch.Length && Beyond(held)
      ensures Rest(held) == old(Rest(held))
    {
      assert batch[held..] == old(batch[held..]);
      assert metadata[held..] == old(metadata[held..]);
      assert outcomes[held..] == old(outcomes[held..]);
    }

    method ClearBehind(remaining: nat, held: nat)
      requires metadata.Length == batch.Length == outcomes.Length && Apart(batch, metadata, outcomes)
      requires remaining <= held <= batch.Length
      modifies batch, metadata, outcomes
      ensures Clean(remaining, held) && (forall i | 0 <= i < held :: outcomes[i] == NO_OUTCOME) && Beyond(held)
      ensures forall i | 0 <= i < remaining :: batch[i] == old(batch[i]) && metadata[i] == old(metadata[i])
    {
      for i := remaining to held
        invariant forall k | 0 <= k < batch.Length ::
          && batch[k] == (if remaining <= k < i then zero else old(batch[k]))
          && metadata[k] == (if remaining <= k < i then BLANK else old(metadata[k]))
          && outcomes[k] == old(outcomes[k])
      {
        batch[i], metadata[i] := zero, BLANK;
      }
      for i := 0 to held
        invariant forall k | 0 <= k < batch.Length ::
          && batch[k] == (if remaining <= k < held then zero else old(batch[k]))
          && metadata[k] == (if remaining <= k < held then BLANK else old(metadata[k]))
          && outcomes[k] == (if k < i then NO_OUTCOME else old(outcomes[k]))
      {
        outcomes[i] := NO_OUTCOME;
      }
    }

    /** `kept` is in place in front and the rows from `position` on are untouched. */
    ghost predicate Gapped(rows: seq<Row<T>>, kept: seq<Row<T>>, position: nat)
      reads batch, metadata
    {
      && |rows| <= batch.Length && |rows| <= metadata.Length && |kept| <= position <= |rows|
      && (forall i | 0 <= i < |kept| :: Row(batch[i], metadata[i]) == kept[i])
      && (forall i | position <= i < |rows| :: Row(batch[i], metadata[i]) == rows[i])
    }

    lemma GappedStart(held: nat)
      requires held <= batch.Length && held <= metadata.Length
      ensures Gapped(Rows(held), [], 0)
    {
    }

    lemma GappedAt(rows: seq<Row<T>>, kept: seq<Row<T>>, position: nat)
      requires Gapped(rows, kept, position)
      ensures |rows| <= batch.Length && |rows| <= metadata.Length && |kept| <= position <= |rows|
      ensures Rows(|kept|) == kept && (position < |rows| ==> metadata[position] == rows[position].meta)
    {
    }

    method Blank(position: nat, ghost rows: seq<Row<T>>, ghost kept: seq<Row<T>>)
      requires Gapped(rows, kept, position) && position < |rows| <= outcomes.Length && Apart(batch, metadata, outcomes)
      requires metadata.Length == batch.Length == outcomes.Length
      modifies batch, metadata, outcomes
      ensures Gapped(rows, kept, position + 1) && Rest(|rows|) == old(Rest(|rows|))
      ensures forall i | position < i < outcomes.Length :: outcomes[i] == old(outcomes[i])
    {
      batch[position], outcomes[position], metadata[position] := zero, NO_OUTCOME, BLANK;
    }

    method Move(position: nat, remaining: nat, ghost rows: seq<Row<T>>, ghost kept: seq<Row<T>>)
      requires Gapped(rows, kept, position) && position < |rows| && remaining == |kept|
      requires metadata.Length == batch.Length == outcomes.Length && Apart(batch, metadata, outcomes)
      modifies batch, metadata
      ensures Gapped(rows, kept + [rows[position]], position + 1) && Rest(|rows|) == old(Rest(|rows|))
    {
      batch[remaining] := batch[position];
      metadata[remaining] := metadata[position];
    }

    method CloseGaps(held: nat, due: nat) returns (remaining: nat, delta: Delta)
      requires metadata.Length == batch.Length == outcomes.Length && Apart(batch, metadata, outcomes)
      requires due <= held <= batch.Length
      modifies batch, metadata, outcomes
      ensures remaining <= held && Rows(remaining) == Kept(old(Rows(held)), due)
      ensures delta == Tally(Ended(old(Rows(held)), old(outcomes[..due])))
      ensures Rest(held) == old(Rest(held))
    {
      ghost var rows, decided := Rows(held), outcomes[..due];
      ghost var kept: seq<Row<T>>, ended: seq<Final<T>> := [], [];
      SettledStart(rows, decided);
      GappedStart(held);
      hide *;
      delta, remaining := NONE, 0;
      for position := 0 to held
        invariant remaining == |kept| && Gapped(rows, kept, position) && Rest(held) == old(Rest(held))
        invariant Settled(rows, decided, position, kept, ended, delta)
        invariant forall i | position <= i < due :: outcomes[i] == decided[i]
      {
        GappedAt(rows, kept, position);
        SettledStep(rows, decided, position, kept, ended, delta);
        if position < due && !metadata[position].pending {
          delta := Add(delta, OutcomeDelta(outcomes[position]));
          Blank(position, rows, kept);
          ended := ended + [Final(rows[position].item, decided[position])];
        } else {
          Move(position, remaining, rows, kept);
          remaining := remaining + 1;
          kept := kept + [rows[position]];
        }
      }
      GappedAt(rows, kept, held);
      SettledEnd(rows, decided, kept, ended, delta);
    }

    /** Gives everything still held its outcome for an abort. */
    method DecideDropped(held: nat) returns (delta: Delta)
      requires Valid() && held <= batch.Length
      modifies outcomes
      ensures delta == Tally(Dropped(Rows(held)))
      ensures forall i | held <= i < outcomes.Length :: outcomes[i] == old(outcomes[i])
    {
      hide Tally, Add, OutcomeDelta;
      ghost var rows, dropped := Rows(held), Dropped(Rows(held));
      delta := NONE;
      NothingYet<T>([], []);
      assert dropped[..0] == [];
      for position := 0 to held
        invariant delta == Tally(dropped[..position])
        invariant forall i | held <= i < outcomes.Length :: outcomes[i] == old(outcomes[i])
      {
        var item := metadata[position];
        outcomes[position] := Outcome(Abandoned, item.attempts, AbandonErr(item, true));
        assert dropped[..position + 1] == dropped[..position] + [dropped[position]];
        TallyPush(dropped[..position], dropped[position]);
        delta := Add(delta, OutcomeDelta(outcomes[position]));
      }
      assert dropped[..held] == dropped && Rows(held) == rows;
    }

    /** Ends everything still held, for an abort. */
    method AbandonHeld(held: nat)
      requires Valid() && held <= batch.Length
      modifies this, batch, metadata, outcomes
      ensures Valid() && finals == old(finals) + Dropped(old(Rows(held)))
      ensures Clean(0, held) && Beyond(held)
    {
      hide Tally, Add, Dropped;
      ghost var rows := Rows(held);
      var delta := DecideDropped(held);
      assert Rows(held) == rows;
      ClearBehind(0, held);
      TallyConcat(finals, Dropped(rows));
      counters, finals := Add(counters, delta), finals + Dropped(rows);
    }

    /** The earliest time one of the held items is due. */
    method Earliest(held: nat) returns (earliest: int, ghost at: nat)
      requires Valid() && 0 < held <= batch.Length
      ensures at < held && metadata[at].due == earliest
      ensures forall i | 0 <= i < held :: earliest <= metadata[i].due
    {
      earliest, at := metadata[0].due, 0;
      for i := 1 to held
        invariant at < held && metadata[at].due == earliest
        invariant forall k | 0 <= k < i :: earliest <= metadata[k].due
      {
        if metadata[i].due < earliest {
          earliest, at := metadata[i].due, i;
        }
      }
    }

    /** One round over the due items: what is still held afterwards, and that attempts were used. */
    method RunRound(held: nat, due: nat, round: Round, limit: nat, ghost count: nat, ghost all: multiset<T>,
                    ghost ends: seq<Final<T>>)
      returns (remaining: nat, ghost ends': seq<Final<T>>)
      requires Valid() && 0 < due <= held <= count <= batch.Length && Clean(held, count)
      requires Spare(Rows(held), limit) && Limited(ends, limit) && Conserved(all, Rows(held), ends)
      modifies this, batch, metadata, outcomes
      ensures Valid() && remaining <= held && ends <= ends' && Clean(remaining, count) && Beyond(count)
      ensures Spare(Rows(remaining), limit) && Limited(ends', limit) && Conserved(all, Rows(remaining), ends')
      ensures Left(Rows(remaining), limit) < old(Left(Rows(held), limit))
      ensures finals == old(finals) + ends'[|ends|..]
      ensures Rows(remaining) == Kept(InvokedRows(old(Rows(held)), due, round, limit), due)
      ensures ends' == ends + Ended(InvokedRows(old(Rows(held)), due, round, limit), OutcomesOf(old(Rows(held)), due, round, limit))
    {
      hide Kept, Ended, Left, Tally, Spare, Limited, Conserved, InvokedRows, OutcomesOf, FinalItems, Items, Dropped, Compact, Add;
      ghost var rows := Rows(held);
      InvokeHeld(held, due, round, limit);
      ghost var after, decided := Rows(held), outcomes[..due];
      remaining := Settle(held, due);
      RoundFacts(rows, due, round, limit, all, ends);
      ends' := ends + Ended(after, decided);
      assert ends'[|ends|..] == Ended(after, decided);
    }

    method DropRest(held: nat, limit: nat, ghost count: nat, ghost all: multiset<T>, ghost ends: seq<Final<T>>)
      returns (ghost ends': seq<Final<T>>)
      requires Valid() && held <= count <= batch.Length && Clean(held, count)
      requires Spare(Rows(held), limit) && Limited(ends, limit) && Conserved(all, Rows(held), ends)
      modifies this, batch, metadata, outcomes
      ensures Valid() && ends <= ends' && finals == old(finals) + ends'[|ends|..]
      ensures Limited(ends', limit) && multiset(FinalItems(ends')) == all && ends' == ends + Dropped(old(Rows(held)))
      ensures Clean(0, count) && Beyond(count)
    {
      hide Kept, Ended, Left, Tally, Spare, Limited, Conserved, InvokedRows, OutcomesOf, FinalItems, Items, Dropped, Compact, Add;
      ends' := ends + Dropped(Rows(held));
      EndAll(Rows(held), ends, limit, all);
      assert ends'[|ends|..] == Dropped(Rows(held));
      AbandonHeld(held);
    }

    /** Processes a received batch to the end: every item gets exactly one terminal outcome, after at most
        `limit` attempts, whatever the handler, the policy and aborts do, if a wait for the earliest item
        never ends before that item is due. Nothing is left behind in the buffers. */
    method Process(count: nat, env: nat -> Round, limit: nat) returns (ghost ends: seq<Final<T>>)
      requires Valid() && count <= batch.Length && limit > 0
      requires forall i | 0 <= i < count :: metadata[i] == BLANK
      modifies this, batch, metadata, outcomes
      ensures Valid() && finals == old(finals) + ends && Limited(ends, limit)
      ensures multiset(FinalItems(ends)) == old(multiset(batch[..count]))
      ensures counters == Add(old(counters), Tally(ends))
      ensures AllExplained(ends, env, limit) && (Smooth(env) ==> AllSucceeded(ends))
      ensures Clean(0, count) && Beyond(count)
    {
      ends := RunRounds(count, env, limit);
      TallyConcat(old(finals), ends);
    }

    method RunRounds(count: nat, env: nat -> Round, limit: nat) returns (ghost ends: seq<Final<T>>)
      requires Valid() && count <= batch.Length && limit > 0
      requires forall i | 0 <= i < count :: metadata[i] == BLANK
      modifies this, batch, metadata, outcomes
      ensures Valid() && finals == old(finals) + ends && Limited(ends, limit)
      ensures multiset(FinalItems(ends)) == old(multiset(batch[..count]))
      ensures AllExplained(ends, env, limit) && (Smooth(env) ==> AllSucceeded(ends))
      ensures Clean(0, count) && Beyond(count)
    {
      ghost var all := multiset(batch[..count]);
      GoingStart(Rows(count), batch[..count], env, limit);
      assert Clean(count, count);
      hide *;
      ends := LoopRounds(count, env, limit, all);
      GoingEnd(all, Rows(0), 0, ends, env, limit);
      RestBeyond(count);
    }

    method LoopRounds(count: nat, env: nat -> Round, limit: nat, ghost all: multiset<T>) returns (ghost ends: seq<Final<T>>)
      requires Valid() && count <= batch.Length && Clean(count, count) && Going(all, Rows(count), count, [], env, limit)
      modifies this, batch, metadata, outcomes
      ensures Valid() && finals == old(finals) + ends && Going(all, Rows(0), 0, ends, env, limit)
      ensures Clean(0, count) && Rest(count) == old(Rest(count))
    {
      hide Going, Left, Clean, Rest, Rows, Tally, Apart;
      ghost var more := [];
      ends := [];
      var held: nat, due: nat, k: nat := count, count, 0;
      while held != 0
        invariant Valid() && held <= count && (held != 0 ==> 0 < due <= held) && finals == old(finals) + ends
        invariant Going(all, Rows(held), due, ends, env, limit)
        invariant Clean(held, count) && Rest(count) == old(Rest(count))
        decreases if held == 0 then 0 else 1 + Left(Rows(held), limit)
      {
        held, due, more := NextRound(held, due, env, k, limit, count, all, ends);
        assert more == ends + more[|ends|..];
        ends, k := more, k + 1;
      }
      GoingIs(all, Rows(held), due, ends, env, limit);
    }

    /** One turn of the loop: a round over the due items and the wait for the next, or the end of all at an abort. */
    method NextRound(held: nat, due: nat, env: nat -> Round, k: nat, limit: nat, ghost count: nat, ghost all: multiset<T>,
                     ghost ends: seq<Final<T>>)
      returns (held': nat, due': nat, ghost ends': seq<Final<T>>)
      requires Valid() && 0 < due <= held <= count <= batch.Length && Clean(held, count)
      requires Going(all, Rows(held), due, ends, env, limit)
      modifies this, batch, metadata, outcomes
      ensures Valid() && held' <= held && (held' != 0 ==> 0 < due' <= held') && ends <= ends'
      ensures finals == old(finals) + ends'[|ends|..] && Going(all, Rows(held'), due', ends', env, limit)
      ensures Clean(held', count) && Rest(count) == old(Rest(count)) && (held' != 0 ==> Left(Rows(held'), limit) < old(Left(Rows(held), limit)))
    {
      hide *;
      if env(k).aborted {
        ends' := DropGoing(held, due, env, k, limit, count, all, ends);
        return 0, 0, ends';
      }
      held', ends' := RoundGoing(held, due, env, k, limit, count, all, ends);
      if held' == 0 {
        return held', due, ends';
      }
      if env(k).cut {
        ghost var middle := ends';
        ends' := DropGoing(held', due, env, k, limit, count, all, middle);
        assert ends'[|ends|..] == middle[|ends|..] + ends'[|middle|..];
        return 0, 0, ends';
      }
      due' := AwaitGoing(held', due, env, k, limit, count, all, ends');
    }

    method AwaitGoing(held: nat, ghost due: nat, env: nat -> Round, k: nat, limit: nat, ghost count: nat,
                      ghost all: multiset<T>, ghost ends: seq<Final<T>>)
      returns (due': nat)
      requires Valid() && 0 < held <= count <= batch.Length && Clean(held, count)
      requires Going(all, Rows(held), due, ends, env, limit) && !Smooth(env)
      modifies batch, metadata
      ensures Valid() && 0 < due' <= held && Clean(held, count) && Rest(count) == old(Rest(count))
      ensures Going(all, Rows(held), due', ends, env, limit) && Left(Rows(held), limit) == old(Left(Rows(held), limit))
    {
      GoingIs(all, Rows(held), due, ends, env, limit);
      ghost var kept := Rows(held);
      hide *;
      due' := AwaitDue(held, env(k).late, limit, count, all, ends);
      BeyondRest(count);
      GoingAwaits(all, kept, due, ends, env, limit, Rows(held), due');
    }

    method DropGoing(held: nat, ghost due: nat, ghost env: nat -> Round, ghost k: nat, limit: nat, ghost count: nat,
                     ghost all: multiset<T>, ghost ends: seq<Final<T>>)
      returns (ghost ends': seq<Final<T>>)
      requires Valid() && held <= count <= batch.Length && Clean(held, count)
      requires Going(all, Rows(held), due, ends, env, limit) && (env(k).aborted || env(k).cut)
      modifies this, batch, metadata, outcomes
      ensures Valid() && ends <= ends' && finals == old(finals) + ends'[|ends|..]
      ensures Going(all, Rows(0), 0, ends', env, limit) && Clean(0, count) && Rest(count) == old(Rest(count))
    {
      GoingIs(all, Rows(held), due, ends, env, limit);
      ghost var rows := Rows(held);
      assert Rows(0) == [];
      hide *;
      ends' := DropRest(held, limit, count, all, ends);
      BeyondRest(count);
      GoingDropped(all, rows, due, ends, env, limit, k);
    }

    method RoundGoing(held: nat, due: nat, env: nat -> Round, k: nat, limit: nat, ghost count: nat, ghost all: multiset<T>,
                      ghost ends: seq<Final<T>>)
      returns (remaining: nat, ghost ends': seq<Final<T>>)
      requires Valid() && 0 < due <= held <= count <= batch.Length && Clean(held, count)
      requires Going(all, Rows(held), due, ends, env, limit)
      modifies this, batch, metadata, outcomes
      ensures Valid() && remaining <= held && ends <= ends' && finals == old(finals) + ends'[|ends|..]
      ensures Going(all, Rows(remaining), due, ends', env, limit) && (remaining != 0 ==> !Smooth(env))
      ensures Clean(remaining, count) && Rest(count) == old(Rest(count)) && Left(Rows(remaining), limit) < old(Left(Rows(held), limit))
    {
      GoingIs(all, Rows(held), due, ends, env, limit);
      ghost var rows := Rows(held);
      hide *;
      remaining, ends' := RunRound(held, due, env(k), limit, count, all, ends);
      BeyondRest(count);
      GoingOn(all, rows, due, ends, env, limit, k);
    }

    /** Receive writes its items in front of the buffer. */
    method Receive(items: seq<T>)
      requires Valid() && |items| <= batch.Length && Clean(0, batch.Length)
      modifies batch
      ensures batch[..|items|] == items
      ensures forall i | |items| <= i < batch.Length :: batch[i] == zero
    {
      for i := 0 to |items|
        invariant forall k | 0 <= k < batch.Length :: batch[k] == if k < i then items[k] else zero
      {
        batch[i] := items[i];
      }
    }

    /** The worker's loop over any number of batches, on the same buffers: every item received gets exactly
        one terminal outcome, and between batches and at the end nothing is left behind. It stops at the
        first abort it sees or the first error of Receive, after the items that came with it. */
    method Work(deliveries: seq<Delivery<T>>, limit: nat) returns (received: nat, ghost ends: seq<Final<T>>)
      requires Valid() && limit > 0 && Clean(0, batch.Length)
      requires forall d | d in deliveries :: |d.items| <= batch.Length
      modifies this, batch, metadata, outcomes
      ensures Valid() && finals == old(finals) + ends && counters == Add(old(counters), Tally(ends))
      ensures Clean(0, batch.Length)
      ensures received <= |deliveries| && Limited(ends, limit)
      ensures multiset(FinalItems(ends)) == multiset(Delivered(deliveries[..received]))
      ensures forall k | 0 <= k < received :: !deliveries[k].aborted && (deliveries[k].failed ==> k == received - 1)
      ensures received < |deliveries| ==> deliveries[received].aborted || (received > 0 && deliveries[received - 1].failed)
    {
      hide Tally, Add, Limited, FinalItems, Delivered;
      received, ends := 0, [];
      NoDeliveries(deliveries, limit);
      TallyConcat(finals, ends);
      while received < |deliveries|
        invariant Valid() && finals == old(finals) + ends && Clean(0, batch.Length)
        invariant received <= |deliveries| && Limited(ends, limit)
        invariant multiset(FinalItems(ends)) == multiset(Delivered(deliveries[..received]))
        invariant forall k | 0 <= k < received :: !deliveries[k].aborted && !deliveries[k].failed
      {
        var d := deliveries[received];
        if d.aborted {
          break;
        }
        ghost var more := ReceiveBatch(d, limit);
        DeliveredNext(deliveries, received);
        FinalItemsConcat(ends, more);
        LimitedConcat(ends, more, limit);
        received, ends := received + 1, ends + more;
        if d.failed {
          break;
        }
      }
      TallyConcat(old(finals), ends);
    }

    method ReceiveBatch(d: Delivery<T>, limit: nat) returns (ghost ends: seq<Final<T>>)
      requires Valid() && limit > 0 && Clean(0, batch.Length) && |d.items| <= batch.Length
      modifies this, batch, metadata, outcomes
      ensures Valid() && finals == old(finals) + ends && Limited(ends, limit) && Clean(0, batch.Length)
      ensures multiset(FinalItems(ends)) == multiset(d.items)
    {
      hide Tally, Add, FinalItems;
      Receive(d.items);
      ends := Process(|d.items|, d.env, limit);
    }

    /** Waits for the earliest item, for `late` too long, and brings the due items to the front. */
    method AwaitDue(held: nat, late: nat, limit: nat, ghost count: nat, ghost all: multiset<T>, ghost ends: seq<Final<T>>)
      returns (due: nat)
      requires Valid() && 0 < held <= count <= batch.Length && Clean(held, count)
      requires Spare(Rows(held), limit) && Conserved(all, Rows(held), ends)
      modifies batch, metadata
      ensures Valid() && 0 < due <= held && Clean(held, count) && Beyond(count)
      ensures Spare(Rows(held), limit) && Conserved(all, Rows(held), ends)
      ensures Left(Rows(held), limit) == old(Left(Rows(held), limit))
    {
      hide Left, Items, FinalItems, Spare, Compact, Tally;
      var earliest, at := Earliest(held);
      CompactKeeps(Rows(held), 0, 0, earliest + late, limit);
      SomeDue(Rows(held), at, earliest + late);
      due := CompactDue(held, earliest + late);
    }
  }

  /** What one call of Receive gives a worker: whether an abort is seen before it, the items it writes in
      front of the buffer, whether it ends with an error, and what then happens to the batch. */
  datatype Delivery<!T> = Delivery(aborted: bool, items: seq<T>, failed: bool, env: nat -> Round)

  /** The items of a run of deliveries. */
  function Delivered<T>(deliveries: seq<Delivery<T>>): seq<T> {
    if deliveries == [] then [] else Delivered(deliveries[..|deliveries| - 1]) + deliveries[|deliveries| - 1].items
  }

  lemma DeliveredNext<T>(deliveries: seq<Delivery<T>>, k: nat)
    requires k < |deliveries|
    ensures Delivered(deliveries[..k + 1]) == Delivered(deliveries[..k]) + deliveries[k].items
  {
    assert deliveries[..k + 1][..k] == deliveries[..k];
  }

  lemma NoDeliveries<T>(deliveries: seq<Delivery<T>>, limit: nat)
    ensures Delivered(deliveries[..0]) == [] && FinalItems<T>([]) == [] && Limited<T>([], limit)
  {
    assert deliveries[..0] == [];
  }

  lemma LimitedConcat<T>(a: seq<Final<T>>, b: seq<Final<T>>, limit: nat)
    requires Limited(a, limit) && Limited(b, limit)
    ensures Limited(a + b, limit)
  {
  }

  /** The answer is checked position by position. */
  method Validate(answer: Answer, count: nat, aborted: bool) returns (valid: bool)
    ensures valid == ValidAnswer(answer, count, aborted)
  {
    if answer.NoAnswer? {
      return true;
    }
    if |answer.results| != count {
      return false;
    }
    for i := 0 to count
      invariant forall k | 0 <= k < i :: ValidResult(answer.results[k], aborted)
    {
      if !ValidResult(answer.results[i], aborted) {
        return false;
      }
    }
    return true;
  }

  lemma {:induction false} TallyConcat<T>(a: seq<Final<T>>, b: seq<Final<T>>)
    ensures Tally(a + b) == Add(Tally(a), Tally(b))
  {
    if b == [] {
      assert a + b == a;
    } else {
      var front, last := b[..|b| - 1], b[|b| - 1];
      TallyConcat(a, front);
      hide Tally, Add;
      assert a + b == (a + front) + [last] && b == front + [last];
      TallyPush(a + front, last);
      TallyPush(front, last);
      AddAgain(Tally(a), Tally(front), OutcomeDelta(last.outcome));
    }
  }

  lemma AddAgain(a: Delta, b: Delta, c: Delta)
    ensures Add(Add(a, b), c) == Add(a, Add(b, c))
  {
  }


  /** The items still held and the items ended are the items received. */
  ghost predicate Conserved<T>(all: multiset<T>, rows: seq<Row<T>>, ends: seq<Final<T>>) {
    multiset(Items(rows)) + multiset(FinalItems(ends)) == all
  }

  lemma Start<T>(rows: seq<Row<T>>, items: seq<T>, limit: nat)
    requires limit > 0 && |rows| == |items| && forall i | 0 <= i < |rows| :: rows[i] == Row(items[i], BLANK)
    ensures Spare(rows, limit) && Conserved(multiset(items), rows, []) && Limited<T>([], limit)
  {
    ItemsAre(rows, items);
    assert FinalItems<T>([]) == [];
  }

  lemma {:induction false} ItemsAre<T>(rows: seq<Row<T>>, items: seq<T>)
    requires |rows| == |items| && forall i | 0 <= i < |rows| :: rows[i].item == items[i]
    ensures Items(rows) == items
  {
    if rows != [] {
      ItemsAre(rows[..|rows| - 1], items[..|rows| - 1]);
    }
  }

  lemma NoneHeld<T>(rows: seq<Row<T>>, ends: seq<Final<T>>, all: multiset<T>)
    requires rows == [] && Conserved(all, rows, ends)
    ensures multiset(FinalItems(ends)) == all
  {
    assert Items(rows) == [];
  }

  lemma EndAll<T>(rows: seq<Row<T>>, ends: seq<Final<T>>, limit: nat, all: multiset<T>)
    requires Spare(rows, limit) && Limited(ends, limit) && Conserved(all, rows, ends)
    ensures Limited(ends + Dropped(rows), limit) && multiset(FinalItems(ends + Dropped(rows))) == all
  {
    DroppedItems(rows);
    FinalItemsConcat(ends, Dropped(rows));
    hide Items, FinalItems;
  }

  lemma RoundFacts<T>(rows: seq<Row<T>>, due: nat, round: Round, limit: nat, all: multiset<T>, ends: seq<Final<T>>)
    requires 0 < due <= |rows| && Spare(rows, limit) && Limited(ends, limit) && Conserved(all, rows, ends)
    ensures
      var after, decided := InvokedRows(rows, due, round, limit), OutcomesOf(rows, due, round, limit);
      && Spare(Kept(after, due), limit) && Left(Kept(after, due), limit) < Left(rows, limit)
      && Limited(ends + Ended(after, decided), limit)
      && Conserved(all, Kept(after, due), ends + Ended(after, decided))
  {
    var after, decided := InvokedRows(rows, due, round, limit), OutcomesOf(rows, due, round, limit);
    RoundUsed(rows, due, round, limit);
    SpareKept(rows, after, due, limit);
    RoundUses(rows, after, due, limit, |rows|);
    assert after[..|rows|] == after && rows[..|rows|] == rows;
    OutcomesLimited(rows, due, round, limit);
    EndedLimited(after, decided, limit);
    RoundConserves(rows, after, decided, all, ends);
  }

  lemma OutcomesLimited<T>(rows: seq<Row<T>>, due: nat, round: Round, limit: nat)
    requires due <= |rows| && Spare(rows, limit)
    ensures forall i | 0 <= i < due :: OutcomesOf(rows, due, round, limit)[i].attempts <= limit
    ensures forall i | 0 <= i < |rows| :: InvokedRows(rows, due, round, limit)[i].item == rows[i].item
  {
    forall i | 0 <= i < due ensures OutcomesOf(rows, due, round, limit)[i].attempts <= limit {
      InvokedUses(rows[i].meta, round, due, i, limit);
    }
  }

  lemma RoundConserves<T>(rows: seq<Row<T>>, after: seq<Row<T>>, decided: seq<Outcome>, all: multiset<T>, ends: seq<Final<T>>)
    requires |after| == |rows| && (forall i | 0 <= i < |rows| :: after[i].item == rows[i].item)
    requires Conserved(all, rows, ends)
    ensures Conserved(all, Kept(after, |decided|), ends + Ended(after, decided))
  {
    ItemsOfInvoked(rows, after);
    KeptOrEnded(after, decided);
    FinalItemsConcat(ends, Ended(after, decided));
    hide Items, FinalItems, Kept, Ended;
  }
}
