/** Exactly how long a head may be held in the dpdk MPMC queue for refusals to be honest. The queue's stated limit is
    that no observation spans a complete position cycle. That is short by the capacity: a producer that holds its head
    for a cycle less the capacity is refused in a queue that was never full while it ran. */
module DpdkStall {
  import opened Words32
  import opened DpdkRing
  import opened DpdkInvariant
  import opened DpdkTheorems
  import opened DpdkRefusals
  import opened DpdkHeadFirst

  ghost predicate MetOnce(run: seq<State>, i: nat, t: nat, count: int) {
    exists j: nat :: Met(run, i, t, j, count)
  }

  /** In every run of a queue of this capacity in which no head is held for `limit` positions, every refused call met
      an instant with too little to take for it. */
  ghost predicate RefusalsHonest(cap: nat, limit: nat) {
    forall run: seq<State>, i: nat, t: nat | Run(run) && run[0].cap == cap && Spans(run, limit) && Refused(run, i, t) ::
      MetOnce(run, i, t, Short(run[i].calls[t]))
  }

  // ---------------------------------------------------------------------------------------
  // The stalled producer and the calls that go round behind it

  /** A burst of one that is to return exact counts. */
  function Burst(producer: bool, pc: PC): Call {
    Call(producer, 1, false, true, 0, pc)
  }

  const STALLED := Burst(true, Refresh(0, 0, 0))

  /** An ordered side that has reserved and published `m` single elements. */
  ghost function Done(m: nat): Side {
    Side(false, Starts(m), Below(m), m, m)
  }

  /** The same side with one more reservation that is not published. */
  ghost function Reserved(m: nat): Side {
    Side(false, Starts(m + 1), Below(m), m, m)
  }

  /** The stalled call is where it was, the queue is not full, and no head is held for more than `span` positions. */
  ghost predicate Calm(s: State, span: nat) {
    && 0 in s.calls && s.calls[0] == STALLED && s.calls.Keys <= {0, 1} && Free(s, true) >= 1 && Head(s.prod) <= span
    && (1 in s.calls && Holding(s.calls[1].pc) ==> s.calls[1].pc.h == Head(Own(s, s.calls[1].producer)))
  }

  ghost predicate CalmSince(run: seq<State>, from: nat, span: nat) {
    forall k: nat | from <= k < |run| :: Calm(run[k], span)
  }

  lemma DoesCalm(run: seq<State>, from: nat, span: nat, x: Action, s': State) returns (run': seq<State>)
    requires Run(run) && CalmSince(run, from, span) && Enabled(Last(run), x) && s' == Apply(Last(run), x) && Calm(s', span)
    ensures Run(run') && run < run' && Last(run') == s' && CalmSince(run', from, span)
  {
    hide Init, Enabled, Apply, Next, Calm;
    run' := Does(run, x);
    forall k: nat | from <= k < |run'| ensures Calm(run'[k], span) {
      assert k < |run| ==> run'[k] == run[k];
    }
  }

  /** The side that moves next has done `m`, the other `q`, and `cache` is what the first last kept of the other. */
  datatype Scene = Scene(cap: nat, producer: bool, m: nat, q: nat, cache: nat, other: nat)

  ghost function Shot(z: Scene, own: Side, cache: nat, calls: map<nat, Call>): State {
    if z.producer then State(z.cap, own, Done(z.q), cache, z.other, calls)
    else State(z.cap, Done(z.q), own, z.other, cache, calls)
  }

  function Alone(): map<nat, Call> {
    map[0 := STALLED]
  }

  function Both(z: Scene, pc: PC): map<nat, Call> {
    map[0 := STALLED, 1 := Burst(z.producer, pc)]
  }

  /** There is something to take, and what is taken leaves the queue short of full. */
  predicate Fits(z: Scene, span: nat) {
    && 2 <= z.cap <= 0x4000_0000 && span < CYCLE && z.cache <= z.q < z.cache + CYCLE - z.cap
    && 1 <= z.q + Lead(z.cap, z.producer) - z.m <= z.cap
    && (if z.producer then z.m < span && z.m + 2 <= z.q + z.cap else z.q <= span && z.q + 1 <= z.m + z.cap)
  }

  lemma DoneHead(m: nat)
    ensures Head(Done(m)) == Made(Done(m)) == m && Head(Reserved(m)) == m + 1 && Made(Reserved(m)) == m + 1
  {
  }

  lemma ShotCalm(z: Scene, span: nat, own: Side, cache: nat, calls: map<nat, Call>)
    requires Fits(z, span) && (own == Done(z.m) || own == Reserved(z.m) || own == Done(z.m + 1))
    requires calls == Alone() || exists pc :: calls == Both(z, pc) && (Holding(pc) ==> pc.h == z.m && own == Done(z.m))
    ensures Calm(Shot(z, own, cache, calls), span)
  {
    DoneHead(z.m);
    DoneHead(z.m + 1);
    DoneHead(z.q);
    hide Starts, Below;
  }

  /** The next step of the call in the scene. */
  ghost predicate Leads(z: Scene, own: Side, cache: nat, pc: PC, own': Side, cache': nat, pc': PC) {
    && z.cap < CYCLE && 1 <= z.cap
    && Within(z.cap, own, z.q, cache, Burst(z.producer, pc))
    && Turn(z.cap, own, z.q, cache, Burst(z.producer, pc)) == Effect(own', cache', pc')
  }

  lemma StepTaken(z: Scene, own: Side, cache: nat, pc: PC, own': Side, cache': nat, pc': PC)
    requires Leads(z, own, cache, pc, own', cache', pc')
    ensures Enabled(Shot(z, own, cache, Both(z, pc)), Go(1))
    ensures Apply(Shot(z, own, cache, Both(z, pc)), Go(1)) == Shot(z, own', cache', Both(z, pc'))
  {
    hide Turn, Within, Starts, Below;
    var calls := Both(z, pc);
    assert calls[1 := Burst(z.producer, pc')] == Both(z, pc');
    assert Done(z.q).published == z.q;
  }

  lemma Goes(run: seq<State>, from: nat, span: nat, z: Scene, own: Side, cache: nat, pc: PC, own': Side, cache': nat, pc': PC)
    returns (run': seq<State>)
    requires Run(run) && CalmSince(run, from, span) && Fits(z, span) && Last(run) == Shot(z, own, cache, Both(z, pc))
    requires Leads(z, own, cache, pc, own', cache', pc') && (own' == Done(z.m) || own' == Reserved(z.m) || own' == Done(z.m + 1))
    requires Holding(pc') ==> pc'.h == z.m && own' == Done(z.m)
    ensures Run(run') && run < run' && CalmSince(run', from, span) && Last(run') == Shot(z, own', cache', Both(z, pc'))
  {
    hide Next, Init, Enabled, Apply, Shot, CalmSince, Calm, Fits, Leads;
    StepTaken(z, own, cache, pc, own', cache', pc');
    ShotCalm(z, span, own', cache', Both(z, pc'));
    run' := DoesCalm(run, from, span, Go(1), Shot(z, own', cache', Both(z, pc')));
  }

  // ---------------------------------------------------------------------------------------
  // The steps of one burst of one

  lemma HeadLeads(z: Scene)
    requires 1 <= z.cap < CYCLE && z.q < z.cache + CYCLE - z.cap
    ensures Leads(z, Done(z.m), z.cache, Start, Done(z.m), z.cache, GotHead(z.m, z.m))
    ensures Leads(z, Done(z.m), z.cache, GotHead(z.m, z.m), Done(z.m), z.cache, Refresh(z.m, z.m, z.cache))
  {
    DoneHead(z.m);
  }

  lemma LoadLeads(z: Scene)
    requires 1 <= z.cap < CYCLE && z.cache <= z.q < CYCLE
    ensures
      if z.cache == z.q then
        Leads(z, Done(z.m), z.cache, Refresh(z.m, z.m, z.cache), Done(z.m), z.q, Reserve(z.m, z.m, z.q))
      else
        && Leads(z, Done(z.m), z.cache, Refresh(z.m, z.m, z.cache), Done(z.m), z.cache, Keep(z.m, z.m, z.q))
        && Leads(z, Done(z.m), z.cache, Keep(z.m, z.m, z.q), Done(z.m), z.q, Reserve(z.m, z.m, z.q))
  {
  }

  lemma ReserveLeads(z: Scene)
    requires 2 <= z.cap <= 0x4000_0000 && z.m < CYCLE && z.q < CYCLE && 1 <= z.q + Lead(z.cap, z.producer) - z.m <= z.cap
    ensures Leads(z, Done(z.m), z.q, Reserve(z.m, z.m, z.q), Reserved(z.m), z.q, Working(z.m))
  {
    DoneHead(z.m);
    AdmissionExact(z.cap, Lead(z.cap, z.producer), z.q, z.m);
    assert Starts(z.m) + [z.m + 1] == Starts(z.m + 1);
    hide Room, W;
  }

  lemma PublishLeads(z: Scene)
    requires 1 <= z.cap < CYCLE
    ensures Leads(z, Reserved(z.m), z.q, Working(z.m), Done(z.m + 1), z.q, Finished(1))
  {
    assert Below(z.m) + {z.m} == Below(z.m + 1);
    assert Starts(z.m + 1)[z.m] == z.m && Starts(z.m + 1)[z.m + 1] == z.m + 1;
  }

  /** One burst of one by a call that comes and goes. */
  lemma GoesRound(run: seq<State>, from: nat, span: nat, z: Scene) returns (run': seq<State>)
    requires Run(run) && CalmSince(run, from, span) && Fits(z, span) && Last(run) == Shot(z, Done(z.m), z.cache, Alone())
    ensures Run(run') && run < run' && CalmSince(run', from, span)
    ensures Last(run') == Shot(z, Done(z.m + 1), z.q, Alone())
  {
    hide Next, Init, Leads, CalmSince, Calm;
    run' := Enters(run, from, span, z);
    HeadLeads(z);
    LoadLeads(z);
    ReserveLeads(z);
    PublishLeads(z);
    hide Shot, Done, Reserved, Fits;
    run' := Goes(run', from, span, z, Done(z.m), z.cache, Start, Done(z.m), z.cache, GotHead(z.m, z.m));
    run' := Goes(run', from, span, z, Done(z.m), z.cache, GotHead(z.m, z.m), Done(z.m), z.cache, Refresh(z.m, z.m, z.cache));
    if z.cache == z.q {
      run' := Goes(run', from, span, z, Done(z.m), z.cache, Refresh(z.m, z.m, z.cache), Done(z.m), z.q, Reserve(z.m, z.m, z.q));
    } else {
      run' := Goes(run', from, span, z, Done(z.m), z.cache, Refresh(z.m, z.m, z.cache), Done(z.m), z.cache, Keep(z.m, z.m, z.q));
      run' := Goes(run', from, span, z, Done(z.m), z.cache, Keep(z.m, z.m, z.q), Done(z.m), z.q, Reserve(z.m, z.m, z.q));
    }
    run' := Goes(run', from, span, z, Done(z.m), z.q, Reserve(z.m, z.m, z.q), Reserved(z.m), z.q, Working(z.m));
    run' := Goes(run', from, span, z, Reserved(z.m), z.q, Working(z.m), Done(z.m + 1), z.q, Finished(1));
    run' := Leaves(run', from, span, z);
  }

  lemma Enters(run: seq<State>, from: nat, span: nat, z: Scene) returns (run': seq<State>)
    requires Run(run) && CalmSince(run, from, span) && Fits(z, span) && Last(run) == Shot(z, Done(z.m), z.cache, Alone())
    ensures Run(run') && run < run' && CalmSince(run', from, span)
    ensures Last(run') == Shot(z, Done(z.m), z.cache, Both(z, Start))
  {
    hide Next, Init, CalmSince, Calm, Done;
    ShotCalm(z, span, Done(z.m), z.cache, Both(z, Start));
    assert Alone()[1 := Burst(z.producer, Start)] == Both(z, Start);
    run' := DoesCalm(run, from, span, Begin(1, Burst(z.producer, Start)), Shot(z, Done(z.m), z.cache, Both(z, Start)));
  }

  lemma Leaves(run: seq<State>, from: nat, span: nat, z: Scene) returns (run': seq<State>)
    requires Run(run) && CalmSince(run, from, span) && Fits(z, span)
    requires Last(run) == Shot(z, Done(z.m + 1), z.q, Both(z, Finished(1)))
    ensures Run(run') && run < run' && CalmSince(run', from, span) && Last(run') == Shot(z, Done(z.m + 1), z.q, Alone())
  {
    hide Next, Init, CalmSince, Calm, Done;
    ShotCalm(z, span, Done(z.m + 1), z.q, Alone());
    assert Both(z, Finished(1)) - {1} == Alone();
    run' := DoesCalm(run, from, span, End(1), Shot(z, Done(z.m + 1), z.q, Alone()));
  }

  // ---------------------------------------------------------------------------------------
  // A stall of almost a cycle

  ghost function Pair(cap: nat, a: nat, b: nat, prodCache: nat, consCache: nat): State {
    State(cap, Done(a), Done(b), prodCache, consCache, Alone())
  }

  /** One element goes through: a consumer takes it, and a producer puts the next. */
  lemma PassesOne(run: seq<State>, from: nat, span: nat, cap: nat, k: nat) returns (run': seq<State>)
    requires Run(run) && CalmSince(run, from, span) && 2 <= cap <= 0x4000_0000 && k + 1 < span < CYCLE
    requires Last(run) == Pair(cap, k + 1, k, k, k)
    ensures Run(run') && run < run' && CalmSince(run', from, span) && Last(run') == Pair(cap, k + 2, k + 1, k + 1, k + 1)
  {
    hide Next, Init, CalmSince, Done;
    run' := GoesRound(run, from, span, Scene(cap, false, k, k + 1, k, k));
    run' := GoesRound(run', from, span, Scene(cap, true, k + 1, k + 1, k, k + 1));
  }

  /** Elements go through one by one until both sides have done `span`. */
  lemma PassesAll(run: seq<State>, from: nat, span: nat, cap: nat) returns (run': seq<State>)
    requires Run(run) && CalmSince(run, from, span) && 2 <= cap <= 0x4000_0000 && 0 < span < CYCLE
    requires Last(run) == Pair(cap, 0, 0, 0, 0)
    ensures Run(run') && run < run' && CalmSince(run', from, span) && Last(run') == Pair(cap, span, span, span - 1, span)
  {
    hide Next, Init, CalmSince, Done;
    run' := GoesRound(run, from, span, Scene(cap, true, 0, 0, 0, 0));
    var k := 0;
    while k + 1 < span
      invariant k < span && Run(run') && run < run' && CalmSince(run', from, span) && Last(run') == Pair(cap, k + 1, k, k, k)
    {
      run' := PassesOne(run', from, span, cap, k);
      k := k + 1;
    }
    run' := GoesRound(run', from, span, Scene(cap, false, k, k + 1, k, k));
  }

  /** The producer loads its head and stalls. */
  lemma Stalls(cap: nat) returns (run: seq<State>)
    requires 2 <= cap <= 0x4000_0000
    ensures Run(run) && |run| == 4 && run[0].cap == cap && Last(run) == Pair(cap, 0, 0, 0, 0)
    ensures forall k | 0 <= k < 4 :: Idle(run[k], cap)
  {
    hide Next;
    DoneHead(0);
    assert Starts(0) == [0] && Below(0) == {};
    run := [State(cap, Done(0), Done(0), 0, 0, map[])];
    hide Init;
    run := Does(run, Begin(0, Burst(true, Start)));
    run := Does(run, Go(0));
    assert Last(run).calls == map[0 := Burst(true, GotHead(0, 0))];
    run := Does(run, Go(0));
    assert Last(run).calls == Alone();
  }

  /** Nothing has moved, and whatever head is held is the head. */
  ghost predicate Idle(s: State, cap: nat) {
    && s.prod == Done(0) && s.cons == Done(0) && s.cap == cap
    && forall t | t in s.calls && Holding(s.calls[t].pc) :: s.calls[t].pc.h == 0
  }

  /** What the stalled producer does when it goes on. */
  lemma Refuses(cap: nat, span: nat)
    requires 2 <= cap <= 0x4000_0000 && span + cap == CYCLE
    ensures Turn(cap, Done(span), span, span - 1, STALLED) == Effect(Done(span), span - 1, Keep(0, 0, span))
    ensures Turn(cap, Done(span), span, span - 1, Burst(true, Keep(0, 0, span))) == Effect(Done(span), span, Reserve(0, 0, span))
    ensures Turn(cap, Done(span), span, span, Burst(true, Reserve(0, 0, span))) == Effect(Done(span), span, Finished(0))
    ensures Within(cap, Done(span), span, span, Burst(true, Reserve(0, 0, span)))
  {
    DoneHead(span);
    RoomIs(cap, span, 0);
    assert (cap + span - 0) % 0x1_0000_0000 == 0;
    hide Room, Done;
  }

  ghost function Resumed(cap: nat, span: nat, cache: nat, pc: PC): State {
    State(cap, Done(span), Done(span), cache, span, map[0 := Burst(true, pc)])
  }

  /** The last three steps: the producer goes on, and is refused. */
  lemma GoesOn(run: seq<State>, cap: nat, span: nat) returns (run': seq<State>)
    requires Run(run) && 2 <= cap <= 0x4000_0000 && span + cap == CYCLE && Last(run) == Pair(cap, span, span, span - 1, span)
    ensures Run(run') && run < run' && |run'| == |run| + 3
    ensures run'[|run|] == Resumed(cap, span, span - 1, Keep(0, 0, span))
    ensures run'[|run| + 1] == Resumed(cap, span, span, Reserve(0, 0, span))
    ensures run'[|run| + 2] == Resumed(cap, span, span, Finished(0))
  {
    hide Next, Init, Turn;
    Refuses(cap, span);
    hide Done, Within;
    assert Done(span).published == span by { hide *; DonePublished(span); }
    run' := Does(run, Go(0));
    assert Last(run') == Resumed(cap, span, span - 1, Keep(0, 0, span));
    run' := Does(run', Go(0));
    assert Last(run') == Resumed(cap, span, span, Reserve(0, 0, span));
    run' := Does(run', Go(0));
    assert Last(run') == Resumed(cap, span, span, Finished(0));
  }

  lemma DonePublished(m: nat)
    ensures Done(m).published == m
  {
  }

  /** A burst of one is refused although there was always room for one, from its first step to its last. */
  lemma StallRefused(cap: nat) returns (run: seq<State>)
    requires 2 <= cap <= 0x4000_0000
    ensures Run(run) && run[0].cap == cap && Refused(run, |run| - 1, 0) && run[|run| - 1].calls[0].producer
    ensures !run[|run| - 1].calls[0].fixed && Spans(run, CYCLE - cap + 1)
    ensures forall k | 0 <= k < |run| :: Free(run[k], true) >= 1
  {
    var span := CYCLE - cap;
    var first := Stalls(cap);
    StartCalm(first, cap, span);
    hide Next, Init, CalmSince, Done;
    var before := PassesAll(first, 3, span, cap);
    run := GoesOn(before, cap, span);
    assert forall k | 0 <= k < 4 :: run[k] == first[k];
    assert forall k | 0 <= k < |before| :: run[k] == before[k];
    hide Run, Resumed;
    forall k: nat | k < |run| ensures Tame(run[k], span) {
      if k < 4 {
        IdleTame(run[k], cap, span);
      } else if k < |before| {
        CalmTame(before, 3, span, k);
      } else {
        ResumedTame(run[k], cap, span);
      }
    }
    AllTame(run, span);
    assert run[|run| - 1] == Resumed(cap, span, span, Finished(0));
    ResumedLast(cap, span);
  }

  lemma ResumedLast(cap: nat, span: nat)
    ensures Resumed(cap, span, span, Finished(0)).calls == map[0 := Burst(true, Finished(0))]
  {
  }

  ghost predicate Tame(s: State, span: nat) {
    && Free(s, true) >= 1
    && forall t | t in s.calls && Holding(s.calls[t].pc) :: Head(Own(s, s.calls[t].producer)) <= s.calls[t].pc.h + span
  }

  lemma StartCalm(run: seq<State>, cap: nat, span: nat)
    requires |run| == 4 && Last(run) == Pair(cap, 0, 0, 0, 0) && cap > 0
    ensures CalmSince(run, 3, span)
  {
    DoneHead(0);
  }

  lemma IdleTame(s: State, cap: nat, span: nat)
    requires Idle(s, cap) && cap > 0
    ensures Tame(s, span)
  {
    DoneHead(0);
  }

  lemma CalmTame(run: seq<State>, from: nat, span: nat, k: nat)
    requires CalmSince(run, from, span) && from <= k < |run|
    ensures Tame(run[k], span)
  {
  }

  lemma ResumedTame(s: State, cap: nat, span: nat)
    requires cap > 0 && exists cache, pc :: s == Resumed(cap, span, cache, pc) && (Holding(pc) ==> pc.h == 0)
    ensures Tame(s, span)
  {
    DoneHead(span);
    hide Starts, Below;
  }

  lemma AllTame(run: seq<State>, span: nat)
    requires forall k: nat | k < |run| :: Tame(run[k], span)
    ensures Spans(run, span + 1) && forall k | 0 <= k < |run| :: Free(run[k], true) >= 1
  {
    forall i, t | 0 <= i < |run| && t in run[i].calls && Holding(run[i].calls[t].pc)
      ensures Head(Own(run[i], run[i].calls[t].producer)) < run[i].calls[t].pc.h + (span + 1)
    {
      assert Tame(run[i], span);
    }
    forall k | 0 <= k < |run| ensures Free(run[k], true) >= 1 {
      assert Tame(run[k], span);
    }
  }

  lemma SpansMore(run: seq<State>, a: nat, b: nat)
    requires Spans(run, a) && a <= b
    ensures Spans(run, b)
  {
  }

  /** Refusals are honest in every run if and only if no head is held for a cycle less the capacity, or there is but one
      slot. */
  lemma RefusalsHonestIff(cap: nat, limit: nat)
    requires 0 < cap <= 0x4000_0000 && limit <= CYCLE
    ensures RefusalsHonest(cap, limit) <==> cap == 1 || limit + cap <= CYCLE
  {
    hide Next, Init, Met;
    if cap == 1 || limit + cap <= CYCLE {
      forall run: seq<State>, i: nat, t: nat | Run(run) && run[0].cap == cap && Spans(run, limit) && Refused(run, i, t)
        ensures MetOnce(run, i, t, Short(run[i].calls[t]))
      {
        hide Spans;
        CapKept(run, i);
        var j := RefusalIsHonest(run, i, t, limit);
      }
    } else {
      var run := StallRefused(cap);
      SpansMore(run, CYCLE - cap + 1, limit);
      hide Spans;
      NeverMet(run, |run| - 1, 0);
      assert !RefusalsHonest(cap, limit);
    }
  }

  lemma NeverMet(run: seq<State>, i: nat, t: nat)
    requires i < |run| && t in run[i].calls && run[i].calls[t].producer && !run[i].calls[t].fixed
    requires forall k | 0 <= k < |run| :: Free(run[k], true) >= 1
    ensures !MetOnce(run, i, t, Short(run[i].calls[t]))
  {
    hide Free;
  }
}
