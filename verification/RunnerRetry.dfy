/** A worker's held batch: handler rounds, retries, compaction in place, and the one terminal outcome of
    every item. The handler, the retry policy, the clock and the abort signal are inputs. */
module RunnerRetry {

  /** One held item with its retry metadata. `lastErr` is 0 while there was no ordinary error. */
  datatype Meta = Meta(attempts: nat, lastErr: nat, due: int, pending: bool)

  const BLANK := Meta(0, 0, 0, false)

  datatype Row<T> = Row(item: T, meta: Meta)

  datatype Terminal = Succeeded | Failed | Abandoned

  datatype Outcome = Outcome(state: Terminal, attempts: nat, err: nat)

  datatype Final<T> = Final(item: T, outcome: Outcome)

  // ---------------------------------------------------------------------------------------
  // Compaction of due items

  predicate IsDue<T>(row: Row<T>, now: int) {
    row.meta.due <= now
  }

  function Swap<T>(rows: seq<Row<T>>, i: nat, j: nat): (swapped: seq<Row<T>>)
    requires i < |rows| && j < |rows|
    ensures |swapped| == |rows|
  {
    rows[i := rows[j]][j := rows[i]]
  }

  /** One pass that swaps every due row to the front. */
  function Compact<T>(rows: seq<Row<T>>, position: nat, due: nat, now: int): (r: (seq<Row<T>>, nat))
    requires due <= position <= |rows|
    ensures |r.0| == |rows| && r.1 <= |rows|
    decreases |rows| - position
  {
    if position == |rows| then (rows, due)
    else if IsDue(rows[position], now) then Compact(Swap(rows, due, position), position + 1, due + 1, now)
    else Compact(rows, position + 1, due, now)
  }

  lemma SwapSame<T>(rows: seq<Row<T>>, i: nat, j: nat)
    requires i <= j < |rows|
    ensures multiset(Swap(rows, i, j)) == multiset(rows)
  {
    var a, b := rows[..i], rows[j + 1..];
    if i == j {
      assert Swap(rows, i, j) == rows;
    } else {
      var m := rows[i + 1..j];
      assert rows == a + [rows[i]] + m + [rows[j]] + b;
      assert Swap(rows, i, j) == a + [rows[j]] + m + [rows[i]] + b;
    }
  }

  /** Compaction permutes the rows, payload and metadata together, with exactly the due rows in front. */
  lemma {:induction false} CompactCorrect<T>(rows: seq<Row<T>>, position: nat, due: nat, now: int)
    requires due <= position <= |rows|
    requires forall i | 0 <= i < due :: IsDue(rows[i], now)
    requires forall i | due <= i < position :: !IsDue(rows[i], now)
    ensures
      var (after, n) := Compact(rows, position, due, now);
      && multiset(after) == multiset(rows) && due <= n
      && (forall i | 0 <= i < n :: IsDue(after[i], now))
      && (forall i | n <= i < |after| :: !IsDue(after[i], now))
    decreases |rows| - position
  {
    if position < |rows| {
      if IsDue(rows[position], now) {
        SwapSame(rows, due, position);
        CompactCorrect(Swap(rows, due, position), position + 1, due + 1, now);
      } else {
        CompactCorrect(rows, position + 1, due, now);
      }
    }
  }

  /** A due row anywhere makes the compacted front non-empty. */
  lemma SomeDue<T>(rows: seq<Row<T>>, i: nat, now: int)
    requires i < |rows| && IsDue(rows[i], now)
    ensures Compact(rows, 0, 0, now).1 > 0
  {
    CompactCorrect(rows, 0, 0, now);
    var after := Compact(rows, 0, 0, now).0;
    assert rows[i] in multiset(rows);
    assert rows[i] in after;
  }

  // ---------------------------------------------------------------------------------------
  // One handler round

  datatype ResultState = ResultSucceeded | ResultFailed | ResultUnattempted | ResultInterrupted | ResultUnknown

  /** The handler's answer for one position. `err` is 0 for no error, and `peerCanceled` is the marker that
      the peer-cancellation helper sets when it is given a context that is already cancelled. */
  datatype Result = Result(state: ResultState, err: nat, peerCanceled: bool)

  /** The handler's whole answer. None at all means that every position succeeded. */
  datatype Answer = NoAnswer | Results(results: seq<Result>)

  /** Only an unattempted position needs the runner to have aborted. */
  predicate ValidResult(r: Result, aborted: bool) {
    match r.state
    case ResultSucceeded => r.err == 0
    case ResultFailed => r.err != 0
    case ResultUnattempted => r.err == 0 && aborted
    case ResultInterrupted => r.peerCanceled && r.err != 0
    case ResultUnknown => false
  }

  predicate ValidAnswer(answer: Answer, count: nat, aborted: bool) {
    answer.Results? ==>
      |answer.results| == count && forall i | 0 <= i < count :: ValidResult(answer.results[i], aborted)
  }

  function ResultAt(answer: Answer, i: nat): Result
    requires answer.Results? ==> i < |answer.results|
  {
    if answer.NoAnswer? then Result(ResultSucceeded, 0, false) else answer.results[i]
  }

  /** What the retry policy says of a failure. */
  datatype Policy = Policy(retry: bool, delay: int)

  /** What the world does in one round: whether an abort is seen first, the handler's answer, whether the
      runner has aborted when it is validated and when each position is classified, the policy and the
      clock at each position, whether the wait is cut short, and by how much it oversleeps. */
  datatype Round = Round(
    aborted: bool,
    answer: Answer,
    aborting: bool,
    caused: nat -> bool,
    policy: nat -> Policy,
    clock: nat -> int,
    cut: bool,
    late: nat)

  const MALFORMED := 1
  const ABORTED := 2

  /** The latest ordinary error, or else the cause of the abort, or none without an abort. */
  function AbandonErr(meta: Meta, aborted: bool): nat {
    if meta.lastErr != 0 then meta.lastErr else if aborted then ABORTED else 0
  }

  /** A failed attempt is retried while attempts are left, unless the policy declines or misbehaves. */
  function Classified(meta: Meta, result: Result, aborted: bool, policy: Policy, limit: nat, clock: int): (Meta, Outcome) {
    var tried := meta.(attempts := meta.attempts + 1, pending := false);
    match result.state
    case ResultFailed =>
      var again := tried.attempts < limit && policy.delay >= 0 && policy.retry;
      (Meta(tried.attempts, result.err, if again then clock + policy.delay else 0, again),
       Outcome(Failed, tried.attempts, result.err))
    case ResultUnattempted => (meta.(pending := false), Outcome(Abandoned, meta.attempts, AbandonErr(meta, aborted)))
    case ResultInterrupted => (tried, Outcome(Abandoned, tried.attempts, AbandonErr(meta, aborted)))
    case _ => (tried, Outcome(Succeeded, tried.attempts, 0))
  }

  /** A malformed answer fails every position of the round. */
  function Malformed(meta: Meta): (Meta, Outcome) {
    (meta.(attempts := meta.attempts + 1, pending := false), Outcome(Failed, meta.attempts + 1, MALFORMED))
  }

  function Invoked(meta: Meta, round: Round, due: nat, i: nat, limit: nat): (Meta, Outcome)
    requires i < due
  {
    if ValidAnswer(round.answer, due, round.aborting) then
      Classified(meta, ResultAt(round.answer, i), round.aborting || round.caused(i), round.policy(i), limit, round.clock(i))
    else
      Malformed(meta)
  }

  /** Exactly when a round ends an item as abandoned: the handler answered that it was interrupted, with the
      peer-cancellation marker and whether or not the runner aborted, or that it was not attempted, after an
      abort. The outcome has an error unless it is such an interruption without an abort or earlier error. */
  lemma AbandonedWhen(meta: Meta, round: Round, due: nat, i: nat, limit: nat)
    requires i < due
    ensures
      Invoked(meta, round, due, i, limit).1.state == Abandoned <==>
        && ValidAnswer(round.answer, due, round.aborting)
        && (|| (ResultAt(round.answer, i).state == ResultInterrupted && ResultAt(round.answer, i).peerCanceled)
            || (ResultAt(round.answer, i).state == ResultUnattempted && round.aborting))
    ensures
      var outcome := Invoked(meta, round, due, i, limit).1;
      outcome.state == Abandoned ==>
        (outcome.err == 0 <==> meta.lastErr == 0 && !round.aborting && !round.caused(i))
  {
    if ValidAnswer(round.answer, due, round.aborting) && round.answer.Results? {
      assert ValidResult(round.answer.results[i], round.aborting);
    }
  }

  /** Exactly which answers make an item succeed, fail or wait for a retry. It succeeds if and only if a valid answer
      says so. It fails, with that error, if and only if a valid answer says so, or with every other item of the round
      if the answer is malformed. It stays held if and only if it failed with an attempt to spare and the policy
      retries after no negative delay, and is then due that much after the clock. */
  lemma OutcomeWhen(meta: Meta, round: Round, due: nat, i: nat, limit: nat)
    requires i < due
    ensures
      var (after, outcome) := Invoked(meta, round, due, i, limit);
      var valid := ValidAnswer(round.answer, due, round.aborting);
      && (outcome.state == Succeeded <==> valid && ResultAt(round.answer, i).state == ResultSucceeded)
      && (outcome.state == Succeeded ==> outcome == Outcome(Succeeded, meta.attempts + 1, 0))
      && (outcome.state == Failed <==> !valid || ResultAt(round.answer, i).state == ResultFailed)
      && (outcome.state == Failed ==>
            outcome == Outcome(Failed, meta.attempts + 1, if valid then ResultAt(round.answer, i).err else MALFORMED))
      && (after.pending <==>
            && valid && ResultAt(round.answer, i).state == ResultFailed && meta.attempts + 1 < limit
            && round.policy(i).retry && round.policy(i).delay >= 0)
      && (after.pending ==>
            after == Meta(meta.attempts + 1, ResultAt(round.answer, i).err, round.clock(i) + round.policy(i).delay, true))
  {
    if ValidAnswer(round.answer, due, round.aborting) && round.answer.Results? {
      assert ValidResult(round.answer.results[i], round.aborting);
    }
  }

  /** The rows after a round over the first `due` of them, and the outcomes of those. */
  function InvokedRows<T>(rows: seq<Row<T>>, due: nat, round: Round, limit: nat): (after: seq<Row<T>>)
    requires due <= |rows|
    ensures |after| == |rows|
  {
    seq(|rows|, i requires 0 <= i < |rows| =>
      if i < due then rows[i].(meta := Invoked(rows[i].meta, round, due, i, limit).0) else rows[i])
  }

  function OutcomesOf<T>(rows: seq<Row<T>>, due: nat, round: Round, limit: nat): (outcomes: seq<Outcome>)
    requires due <= |rows|
    ensures |outcomes| == due
  {
    seq(due, i requires 0 <= i < due => Invoked(rows[i].meta, round, due, i, limit).1)
  }

  /** The rows still held: those not due, and those to be retried. */
  function Kept<T>(rows: seq<Row<T>>, due: nat): seq<Row<T>> {
    if rows == [] then []
    else
      var n := |rows| - 1;
      Kept(rows[..n], due) + if n < due && !rows[n].meta.pending then [] else [rows[n]]
  }

  /** The items that end with this round. */
  function Ended<T>(rows: seq<Row<T>>, outcomes: seq<Outcome>): seq<Final<T>>
    decreases |rows|
  {
    if rows == [] then []
    else
      var n := |rows| - 1;
      Ended(rows[..n], outcomes)
      + if n < |outcomes| && !rows[n].meta.pending then [Final(rows[n].item, outcomes[n])] else []
  }

  function Items<T>(rows: seq<Row<T>>): (items: seq<T>)
    ensures |items| == |rows|
  {
    if rows == [] then [] else Items(rows[..|rows| - 1]) + [rows[|rows| - 1].item]
  }

  function FinalItems<T>(finals: seq<Final<T>>): (items: seq<T>)
    ensures |items| == |finals|
  {
    if finals == [] then [] else FinalItems(finals[..|finals| - 1]) + [finals[|finals| - 1].item]
  }

  lemma ItemsPush<T>(rows: seq<Row<T>>, row: Row<T>)
    ensures Items(rows + [row]) == Items(rows) + [row.item]
  {
    assert (rows + [row])[..|rows|] == rows;
  }

  lemma FinalItemsPush<T>(finals: seq<Final<T>>, f: Final<T>)
    ensures FinalItems(finals + [f]) == FinalItems(finals) + [f.item]
  {
    assert (finals + [f])[..|finals|] == finals;
  }

  lemma KeptStep<T>(rows: seq<Row<T>>, last: Row<T>, outcomes: seq<Outcome>)
    ensures |rows| < |outcomes| && !last.meta.pending ==>
      && Kept(rows + [last], |outcomes|) == Kept(rows, |outcomes|)
      && Ended(rows + [last], outcomes) == Ended(rows, outcomes) + [Final(last.item, outcomes[|rows|])]
    ensures !(|rows| < |outcomes| && !last.meta.pending) ==>
      && Kept(rows + [last], |outcomes|) == Kept(rows, |outcomes|) + [last]
      && Ended(rows + [last], outcomes) == Ended(rows, outcomes)
  {
    assert (rows + [last])[..|rows|] == rows;
  }

  lemma Balance<T>(a: seq<T>, b: seq<T>, c: seq<T>, x: T)
    requires multiset(a) + multiset(b) == multiset(c)
    ensures multiset(a + [x]) + multiset(b) == multiset(c + [x])
    ensures multiset(a) + multiset(b + [x]) == multiset(c + [x])
  {
  }

  /** Every row is either kept or ended, never both and never neither. */
  ghost predicate Balanced<T>(rows: seq<Row<T>>, kept: seq<Row<T>>, ended: seq<Final<T>>) {
    multiset(Items(kept)) + multiset(FinalItems(ended)) == multiset(Items(rows))
  }

  lemma BalancedPush<T>(rows: seq<Row<T>>, kept: seq<Row<T>>, ended: seq<Final<T>>, last: Row<T>, outcome: Outcome)
    requires Balanced(rows, kept, ended)
    ensures Balanced(rows + [last], kept + [last], ended)
    ensures Balanced(rows + [last], kept, ended + [Final(last.item, outcome)])
  {
    ItemsPush(rows, last);
    ItemsPush(kept, last);
    FinalItemsPush(ended, Final(last.item, outcome));
    hide Items, FinalItems;
    Balance(Items(kept), FinalItems(ended), Items(rows), last.item);
  }

  lemma {:induction false} KeptOrEnded<T>(rows: seq<Row<T>>, outcomes: seq<Outcome>)
    ensures Balanced(rows, Kept(rows, |outcomes|), Ended(rows, outcomes))
    decreases |rows|
  {
    if rows == [] {
      hide Balanced;
      BalancedNone<T>();
    } else {
      hide *;
      var n := |rows| - 1;
      KeptOrEnded(rows[..n], outcomes);
      KeptOrEndedStep(rows[..n], rows[n], outcomes);
      assert rows[..n] + [rows[n]] == rows;
    }
  }

  lemma BalancedNone<T>()
    ensures Balanced<T>([], [], [])
  {
    var none: multiset<T> := multiset{};
    assert Items<T>([]) == [] && FinalItems<T>([]) == [];
    assert none + none == none;
  }

  lemma KeptOrEndedStep<T>(rows: seq<Row<T>>, last: Row<T>, outcomes: seq<Outcome>)
    requires Balanced(rows, Kept(rows, |outcomes|), Ended(rows, outcomes))
    ensures Balanced(rows + [last], Kept(rows + [last], |outcomes|), Ended(rows + [last], outcomes))
  {
    hide *;
    KeptStep(rows, last, outcomes);
    var outcome := if |rows| < |outcomes| then outcomes[|rows|] else Outcome(Failed, 0, 0);
    BalancedPush(rows, Kept(rows, |outcomes|), Ended(rows, outcomes), last, outcome);
  }

  lemma {:induction false} ItemsOfInvoked<T>(rows: seq<Row<T>>, after: seq<Row<T>>)
    requires |after| == |rows| && forall i | 0 <= i < |rows| :: after[i].item == rows[i].item
    ensures Items(after) == Items(rows)
  {
    if rows != [] {
      ItemsOfInvoked(rows[..|rows| - 1], after[..|rows| - 1]);
    }
  }

  // ---------------------------------------------------------------------------------------
  // Attempts

  /** Attempts left for a row. */
  function LeftOf<T>(row: Row<T>, limit: nat): nat {
    if row.meta.attempts < limit then limit - row.meta.attempts else 0
  }

  function Left<T>(rows: seq<Row<T>>, limit: nat): nat {
    if rows == [] then 0 else Left(rows[..|rows| - 1], limit) + LeftOf(rows[|rows| - 1], limit)
  }

  ghost predicate Spare<T>(rows: seq<Row<T>>, limit: nat) {
    forall i | 0 <= i < |rows| :: rows[i].meta.attempts < limit
  }

  lemma {:induction false} KeptIn<T>(rows: seq<Row<T>>, due: nat)
    ensures |Kept(rows, due)| <= |rows|
    ensures forall k | k in Kept(rows, due) :: exists i :: 0 <= i < |rows| && rows[i] == k && (i < due ==> k.meta.pending)
  {
    if rows != [] {
      var n := |rows| - 1;
      KeptIn(rows[..n], due);
      forall k | k in Kept(rows, due)
        ensures exists i :: 0 <= i < |rows| && rows[i] == k && (i < due ==> k.meta.pending)
      {
        if k in Kept(rows[..n], due) {
          var i :| 0 <= i < n && rows[..n][i] == k && (i < due ==> k.meta.pending);
          assert rows[i] == k;
        } else {
          assert rows[n] == k;
        }
      }
    }
  }

  /** What a round does to attempts: a row to be retried used one and has one left; a row not due is
      untouched. */
  ghost predicate Used<T>(rows: seq<Row<T>>, after: seq<Row<T>>, due: nat, limit: nat) {
    && |after| == |rows|
    && (forall i | 0 <= i < |rows| && i < due && after[i].meta.pending ::
          rows[i].meta.attempts + 1 == after[i].meta.attempts < limit)
    && (forall i | due <= i < |rows| :: after[i] == rows[i])
  }

  lemma RoundUsed<T>(rows: seq<Row<T>>, due: nat, round: Round, limit: nat)
    requires due <= |rows|
    ensures Used(rows, InvokedRows(rows, due, round, limit), due, limit)
  {
    var after := InvokedRows(rows, due, round, limit);
    forall i | 0 <= i < |rows| && i < due && after[i].meta.pending
      ensures rows[i].meta.attempts + 1 == after[i].meta.attempts < limit
    {
      InvokedUses(rows[i].meta, round, due, i, limit);
    }
  }

  lemma InvokedUses(meta: Meta, round: Round, due: nat, i: nat, limit: nat)
    requires i < due
    ensures
      var (after, outcome) := Invoked(meta, round, due, i, limit);
      && (after.pending ==> meta.attempts + 1 == after.attempts < limit)
      && outcome.attempts == after.attempts <= meta.attempts + 1
      && (after.pending ==> outcome.state == Failed)
  {
  }

  /** A round leaves every kept row an attempt to spare. */
  lemma SpareKept<T>(rows: seq<Row<T>>, after: seq<Row<T>>, due: nat, limit: nat)
    requires Spare(rows, limit) && Used(rows, after, due, limit)
    ensures Spare(Kept(after, due), limit)
  {
    KeptIn(after, due);
    var kept := Kept(after, due);
    forall k | 0 <= k < |kept| ensures kept[k].meta.attempts < limit {
      assert kept[k] in kept;
      var i :| 0 <= i < |after| && after[i] == kept[k] && (i < due ==> kept[k].meta.pending);
    }
  }

  /** Every row in a round uses an attempt or ends. */
  lemma {:induction false} RoundUses<T>(rows: seq<Row<T>>, after: seq<Row<T>>, due: nat, limit: nat, n: nat)
    requires Spare(rows, limit) && Used(rows, after, due, limit) && n <= |rows|
    ensures Left(Kept(after[..n], due), limit) + (if n < due then n else due) <= Left(rows[..n], limit)
  {
    hide Left;
    if n > 0 {
      RoundUses(rows, after, due, limit, n - 1);
      LastOf(rows[..n], limit);
      assert rows[..n][..n - 1] == rows[..n - 1] && after[..n][..n - 1] == after[..n - 1];
      var k := Kept(after[..n - 1], due);
      if n - 1 < due && !after[n - 1].meta.pending {
        assert Kept(after[..n], due) == k;
      } else {
        assert Kept(after[..n], due) == k + [after[n - 1]];
        LastOf(k + [after[n - 1]], limit);
        assert (k + [after[n - 1]])[..|k|] == k;
      }
    }
  }

  lemma LastOf<T>(rows: seq<Row<T>>, limit: nat)
    requires rows != []
    ensures Left(rows, limit) == Left(rows[..|rows| - 1], limit) + LeftOf(rows[|rows| - 1], limit)
  {
  }

  // ---------------------------------------------------------------------------------------
  // Compaction keeps items and attempts

  lemma {:induction false} LeftConcat<T>(a: seq<Row<T>>, b: seq<Row<T>>, limit: nat)
    ensures Left(a + b, limit) == Left(a, limit) + Left(b, limit)
  {
    if b == [] {
      assert a + b == a;
    } else {
      var n := |b| - 1;
      LeftConcat(a, b[..n], limit);
      assert (a + b)[..|a| + n] == a + b[..n];
    }
  }

  lemma {:induction false} ItemsConcat<T>(a: seq<Row<T>>, b: seq<Row<T>>)
    ensures Items(a + b) == Items(a) + Items(b)
  {
    if b == [] {
      assert a + b == a;
    } else {
      var n := |b| - 1;
      ItemsConcat(a, b[..n]);
      assert (a + b)[..|a| + n] == a + b[..n];
    }
  }

  lemma Parts<T>(a: seq<Row<T>>, x: Row<T>, m: seq<Row<T>>, y: Row<T>, b: seq<Row<T>>, limit: nat)
    ensures
      var all := a + [x] + m + [y] + b;
      && Left(all, limit) == Left(a, limit) + LeftOf(x, limit) + Left(m, limit) + LeftOf(y, limit) + Left(b, limit)
      && Items(all) == Items(a) + [x.item] + Items(m) + [y.item] + Items(b)
  {
    One(x, limit);
    One(y, limit);
    LeftConcat(a, [x], limit);
    ItemsConcat(a, [x]);
    LeftConcat(a + [x], m, limit);
    ItemsConcat(a + [x], m);
    LeftConcat(a + [x] + m, [y], limit);
    ItemsConcat(a + [x] + m, [y]);
    LeftConcat(a + [x] + m + [y], b, limit);
    ItemsConcat(a + [x] + m + [y], b);
  }

  lemma One<T>(x: Row<T>, limit: nat)
    ensures Left([x], limit) == LeftOf(x, limit) && Items([x]) == [x.item]
  {
    assert [x][..0] == [];
  }

  lemma SwapKeeps<T>(rows: seq<Row<T>>, i: nat, j: nat, limit: nat)
    requires i <= j < |rows|
    ensures Left(Swap(rows, i, j), limit) == Left(rows, limit)
    ensures multiset(Items(Swap(rows, i, j))) == multiset(Items(rows))
  {
    hide Left, Items, LeftOf;
    if i == j {
      assert Swap(rows, i, j) == rows;
    } else {
      var a, m, b := rows[..i], rows[i + 1..j], rows[j + 1..];
      assert rows == a + [rows[i]] + m + [rows[j]] + b;
      assert Swap(rows, i, j) == a + [rows[j]] + m + [rows[i]] + b;
      Parts(a, rows[i], m, rows[j], b, limit);
      Parts(a, rows[j], m, rows[i], b, limit);
    }
  }

  lemma {:induction false} CompactKeeps<T>(rows: seq<Row<T>>, position: nat, due: nat, now: int, limit: nat)
    requires due <= position <= |rows|
    ensures
      var after := Compact(rows, position, due, now).0;
      && Left(after, limit) == Left(rows, limit) && multiset(Items(after)) == multiset(Items(rows))
      && (Spare(rows, limit) ==> Spare(after, limit))
    decreases |rows| - position
  {
    hide Items, Left;
    if position < |rows| {
      if IsDue(rows[position], now) {
        SwapKeeps(rows, due, position, limit);
        CompactKeeps(Swap(rows, due, position), position + 1, due + 1, now, limit);
      } else {
        CompactKeeps(rows, position + 1, due, now, limit);
      }
    }
  }
}
