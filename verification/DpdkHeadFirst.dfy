/** Why a relaxed publisher of the dpdk MPMC queue loads the tail before the head: a run in which a publisher
    that had loaded them the other way round would move the tail past an unfinished reservation. */
module DpdkHeadFirst {
  import opened Words32
  import opened DpdkRing

  ghost function Last(run: seq<State>): State
    requires |run| > 0
  {
    run[|run| - 1]
  }

  lemma Does(run: seq<State>, x: Action) returns (run': seq<State>)
    requires Run(run) && Enabled(Last(run), x)
    ensures Run(run') && run < run' && |run'| == |run| + 1 && Last(run') == Apply(Last(run), x)
  {
    hide Init, Enabled, Apply;
    run' := run + [Apply(Last(run), x)];
    assert Next(run'[|run| - 1], run'[|run|]);
    forall i | 0 <= i < |run'| - 1 ensures Next(run'[i], run'[i + 1]) {
      if i < |run| - 1 {
        assert Next(run[i], run[i + 1]);
      }
    }
  }

  /** A producer that reserves a single element. */
  function Single(pc: PC): Call {
    Call(true, 1, true, false, 4, pc)
  }

  function Starts(made: nat): seq<nat> {
    seq(made + 1, i => i)
  }

  /** Four slots, relaxed producers that have made `made` reservations of one and finished those counted. */
  function At(made: nat, counted: set<nat>, calls: map<nat, Call>): State {
    State(4, Side(true, Starts(made), counted, 0, 0), Side(false, [0], {}, 0, 0), 0, 0, calls)
  }

  lemma Reserves(run: seq<State>, made: nat, calls: map<nat, Call>) returns (run': seq<State>)
    requires Run(run) && made < 3 && made !in calls && Last(run) == At(made, {}, calls)
    ensures Run(run') && run < run' && Last(run') == At(made + 1, {}, calls[made := Single(Working(made))])
  {
    hide Next, Init, ReserveTurn;
    run' := Observes(run, made, calls);
    var calls' := calls[made := Single(Reserve(made, made, 0))];
    GrantsOne(made);
    run' := Does(run', Go(made));
    assert calls'[made := Single(Working(made))] == calls[made := Single(Working(made))];
  }

  /** With fewer than three of four slots taken, one more is granted. */
  lemma GrantsOne(made: nat)
    requires made < 3
    ensures
      var own := Side(true, Starts(made), {}, 0, 0);
      ReserveTurn(4, own, 0, Single(Reserve(made, made, 0)), made, made, 0)
        == Effect(own.(starts := Starts(made + 1)), 0, Working(made))
  {
    assert Starts(made) + [made + 1] == Starts(made + 1);
  }

  lemma Observes(run: seq<State>, made: nat, calls: map<nat, Call>) returns (run': seq<State>)
    requires Run(run) && made < 3 && made !in calls && Last(run) == At(made, {}, calls)
    ensures Run(run') && run < run' && Last(run') == At(made, {}, calls[made := Single(Reserve(made, made, 0))])
  {
    hide Next, Init, ReserveTurn, PublishTurn, TailTurn;
    run' := Does(run, Begin(made, Single(Start)));
    run' := Does(run', Go(made));
    run' := Does(run', Go(made));
    assert Last(run').calls[made] == Single(GotHead(made, made));
    run' := Does(run', Go(made));
    assert Last(run').calls == calls[made := Single(Reserve(made, made, 0))];
  }

  /** Three reservations made and none finished: one more does not make the counters meet. */
  lemma CountsAlone(own: Side)
    requires own == Side(true, Starts(3), {}, 0, 0)
    ensures TailTurn(own, 0, 2, 0, 0, 3, 3) == Effect(own.(counted := {2}), 0, Finished(1))
  {
    hide Pack, NextTail, UnpackPos;
    Unmoved();
    assert own.counted + {2} == {2} && |own.counted| == 0;
  }

  lemma Unmoved()
    ensures UnpackPos(NextTail(Pack(W(0), W(0)), Pack(W(3), W(3)))) == W(0)
  {
    hide *;
    NextTailExact(0, 0, 3, 3);
    PackRoundTrip(W(0), W(0 + 1));
  }

  /** The third publisher finishes first. */
  lemma Finishes(run: seq<State>, calls: map<nat, Call>) returns (run': seq<State>)
    requires Run(run) && 2 in calls && calls[2] == Single(Working(2)) && Last(run) == At(3, {}, calls)
    ensures Run(run') && run < run' && Last(run').prod == Side(true, Starts(3), {2}, 0, 0)
    ensures Last(run').calls == calls[2 := Single(Finished(1))]
  {
    CountsAlone(Last(run).prod);
    hide Next, Init, TailTurn, ReserveTurn, PublishTurn, NeedsFresh;
    run' := Does(run, Go(2));
    run' := Does(run', Go(2));
    run' := Does(run', Go(2));
    assert Last(run').calls[2] == Single(PubCas(2, 0, 0, 3, 3));
    run' := Does(run', Go(2));
  }

  /** Calls 0 and 1 work on the first two reservations at `i` and in the last state. If call 0 had loaded the
      head at `i` and the tail in the last state, its update would move the tail past the second reservation,
      which is unfinished. */
  lemma HeadFirstFails() returns (run: seq<State>, i: nat, e: Effect)
    ensures Run(run) && i < |run|
    ensures forall s, t | s in {run[i], Last(run)} && t in {0, 1} :: t in s.calls && s.calls[t] == Single(Working(t))
    ensures
      var late := Last(run).prod;
      e == TailTurn(late, Last(run).prodCache, 0, |late.counted|, late.tail, Made(run[i].prod), Head(run[i].prod))
    ensures 1 !in e.own.counted && |e.own.starts| > 1 && e.own.starts[1] < e.own.tail
  {
    hide Next;
    var calls: map<nat, Call> := map[];
    run := [At(0, {}, calls)];
    assert Starts(0) == [0];
    hide Init;
    run := Reserves(run, 0, calls);
    calls := calls[0 := Single(Working(0))];
    run := Reserves(run, 1, calls);
    calls := calls[1 := Single(Working(1))];
    i := |run| - 1;
    var early := Last(run);
    run := Reserves(run, 2, calls);
    calls := calls[2 := Single(Working(2))];
    run := Finishes(run, calls);
    assert run[i] == early;
    var late := Last(run).prod;
    assert |late.counted| == 1;
    e := TailTurn(late, Last(run).prodCache, 0, 1, 0, 2, 2);
    assert W(1 + 1) == W(2);
  }
}
