/** The slot steps of one call of the multi-producer multi-consumer frontier queue, taken together, are
    the copies in at most two parts. */
module FrontierCopies {
  import opened Lanes
  import opened FrontierMPMC
  import opened SlotCopy

  /** `k` steps of call `t` in a row. */
  ghost function Steps<T>(s: State<T>, t: nat, k: nat): (s': State<T>)
    requires Shaped(s)
    ensures Shaped(s')
  {
    if k == 0 then s
    else
      var before := Steps(s, t, k - 1);
      if t in before.calls then Turn(before, t) else before
  }

  /** The steps of a producer's copy write its items in the slots of its interval. */
  lemma {:induction false} StepsWrite<T>(s: State<T>, t: nat, start: nat, count: nat, k: nat)
    requires Shaped(s) && t in s.calls && s.calls[t].request.side.Producer? && s.calls[t].pc == Copy(start, count, 0)
    requires k <= count <= |s.calls[t].values| && count <= s.n
    ensures Steps(s, t, k) == s.(entries := Written(s.entries, Slot(start, s.n), s.calls[t].values[..k]))
                               .With(t, s.calls[t].(pc := Copy(start, count, k)))
  {
    hide Slot, Turn, Written;
    var values := s.calls[t].values;
    if k == 0 {
      NothingWritten(s.entries, Slot(start, s.n));
      assert values[..0] == [] && s.calls[t := s.calls[t]] == s.calls;
    } else {
      StepsWrite(s, t, start, count, k - 1);
      WrittenNext(s.entries, start, values[..k - 1], values[k - 1]);
      assert values[..k] == values[..k - 1] + [values[k - 1]];
      var before := Steps(s, t, k - 1);
      assert before.calls[t] == s.calls[t].(pc := Copy(start, count, k - 1));
      CopyTaken(before, t, start, count, k - 1);
    }
  }

  lemma NothingWritten<T>(entries: seq<T>, base: nat)
    requires base < |entries|
    ensures Written(entries, base, []) == entries
  {
  }

  lemma CopyTaken<T>(s: State<T>, t: nat, start: nat, count: nat, done: nat)
    requires Shaped(s) && t in s.calls && s.calls[t].pc == Copy(start, count, done)
    ensures Turn(s, t) == CopyTurn(s, t, s.calls[t], start, count, done)
  {
    hide Slot, CopyTurn;
  }

  /** The steps of a consumer's copy read the items of its interval in order, and change no slot. */
  lemma {:induction false} StepsRead<T>(s: State<T>, t: nat, start: nat, count: nat, k: nat)
    requires Shaped(s) && t in s.calls && s.calls[t].request.side.Consumer? && s.calls[t].pc == Copy(start, count, 0)
    requires k <= count <= s.n && s.calls[t].values == []
    ensures t in Steps(s, t, k).calls && Steps(s, t, k).entries == s.entries && Steps(s, t, k).n == s.n
    ensures Steps(s, t, k).calls[t] ==
              s.calls[t].(pc := Copy(start, count, k), values := ReadFrom(s.entries, Slot(start, s.n), k))
  {
    hide Slot, Turn;
    if k > 0 {
      StepsRead(s, t, start, count, k - 1);
      SlotOfPosition(start, s.n, k - 1);
      assert ReadFrom(s.entries, Slot(start, s.n), k)
          == ReadFrom(s.entries, Slot(start, s.n), k - 1) + [s.entries[Slot(start + (k - 1), s.n)]];
      CopyTaken(Steps(s, t, k - 1), t, start, count, k - 1);
    }
  }

  /** The steps that clear an interval leave zeros in exactly its slots. */
  lemma {:induction false} StepsClear<T>(s: State<T>, t: nat, start: nat, count: nat, k: nat)
    requires Shaped(s) && t in s.calls && s.calls[t].pc == Clear(start, count, 0) && k <= count <= s.n
    ensures Steps(s, t, k) == s.(entries := Written(s.entries, Slot(start, s.n), seq(k, _ => s.zero)))
                               .With(t, s.calls[t].(pc := Clear(start, count, k)))
  {
    hide Slot, Turn, Written;
    if k == 0 {
      NothingWritten(s.entries, Slot(start, s.n));
      assert seq(0, _ => s.zero) == [] && s.calls[t := s.calls[t]] == s.calls;
    } else {
      StepsClear(s, t, start, count, k - 1);
      WrittenNext(s.entries, start, seq(k - 1, _ => s.zero), s.zero);
      assert seq(k, _ => s.zero) == seq(k - 1, _ => s.zero) + [s.zero];
      ClearTaken(Steps(s, t, k - 1), t, start, count, k - 1);
    }
  }

  lemma ClearTaken<T>(s: State<T>, t: nat, start: nat, count: nat, done: nat)
    requires Shaped(s) && t in s.calls && s.calls[t].pc == Clear(start, count, done)
    ensures Turn(s, t) == ClearTurn(s, t, s.calls[t], start, count, done)
  {
    hide Slot, ClearTurn;
  }
}
