/** When a refusal or a reported count of the multi-producer multi-consumer frontier queue can be trusted.

    A call that finds too little asks a discovery that may have started a while ago. If another caller of its
    side reserves meanwhile, the records it looks at may already belong to the next lap, so it stops short and
    refuses, or reports less, although there was more to take all the time. */
module FrontierBulk {
  import opened Lanes
  import D = Discovery
  import opened FrontierMPMC
  import opened FrontierInvariant
  import opened FrontierSafety
  import opened FrontierSteps
  import opened FrontierTheorems

  /** Call `t` of `run[i]` is a bulk transfer of `count` that was refused. */
  ghost predicate Refused<T>(run: seq<State<T>>, i: nat, t: nat, side: Side, count: nat) {
    && i < |run| && t in run[i].calls
    && run[i].calls[t].pc.Return? && run[i].calls[t].pc.count == 0
    && run[i].calls[t].request.(exact := false) == Request(side, count, true, false, false)
  }

  /** Call `t` of `run[i]` has request `r` and moved nothing. */
  ghost predicate Empty<T>(run: seq<State<T>>, i: nat, t: nat, r: Request) {
    && i < |run| && t in run[i].calls
    && run[i].calls[t].pc.Return? && run[i].calls[t].pc.count == 0 && run[i].calls[t].request == r
  }

  /** The call met an instant with no more than `count` to take. */
  ghost predicate MetOnce<T>(run: seq<State<T>>, i: nat, t: nat, count: int)
    requires i < |run| && t in run[i].calls
  {
    exists j :: Met(run, i, t, j, count)
  }

  /** In every run of a queue of `n` slots, every refused bulk transfer of `count` met an instant with
      fewer than `count` to take. */
  ghost predicate RefusalsHonest<T(!new)>(n: nat, zero: T, side: Side, count: nat) {
    forall run: seq<State<T>>, i, t | Run(run) && run[0].n == n && run[0].zero == zero && Refused(run, i, t, side, count) ::
      MetOnce(run, i, t, count - 1)
  }

  /** In every run of a queue of `n` slots, every call with request `r` that moved nothing met an instant with
      no more to take than it reports. */
  ghost predicate ReportsFresh<T(!new)>(n: nat, zero: T, r: Request) {
    forall run: seq<State<T>>, i: nat, t: nat | Run(run) && run[0].n == n && run[0].zero == zero && Empty(run, i, t, r) ::
      MetOnce(run, i, t, run[i].calls[t].left)
  }

  // ---------------------------------------------------------------------------------------
  // A refused transfer of a whole lap

  /** The call has loaded a head and reserved nothing. */
  predicate Attempting(pc: PC) {
    pc.LoadOpposite? || pc.Advance? || pc.Reserve? || (pc.Return? && pc.count == 0)
  }

  function HeadOf(pc: PC): nat
    requires Attempting(pc)
  {
    if pc.Return? then pc.start else pc.head
  }

  /** A step either leaves a head alone or reserves on that lane and touches nothing else. */
  ghost predicate HeadStep<T>(s: State<T>, s': State<T>, side: Side) {
    s'.Own(side).head == s.Own(side).head ||
    (s.Own(side).head < s'.Own(side).head && s'.Own(side).frontier == s.Own(side).frontier &&
     s'.Opposite(side) == s.Opposite(side) && s'.n == s.n)
  }

  lemma ReserveHead<T>(s: State<T>, t: nat, s': State<T>, side: Side)
    requires Inv(s) && t in s.calls && s.calls[t].pc.Reserve?
    requires s' == ReserveTurn(s, t, s.calls[t], s.calls[t].pc.head, s.calls[t].pc.available)
    ensures HeadStep(s, s', side)
  {
    hide LaneInv, ValuesInv, CarriesInv, CallsInv;
    CallFacts(s, t);
    var c := s.calls[t];
    if s.Own(c.request.side).head == c.pc.head {
      ReservedShape(s, t, c, s', D.Min(c.request.count, c.pc.available));
    }
  }

  lemma ScanHead<T>(s: State<T>, t: nat, s': State<T>, side: Side, head: nat, scan: D.Scan)
    requires Shaped(s) && t in s.calls && s' == AdvanceTurn(s, t, s.calls[t], head, scan)
    ensures s'.Own(side).head == s.Own(side).head
  {
    hide Available, D.Step;
  }

  lemma TurnHead<T>(s: State<T>, t: nat, s': State<T>, side: Side)
    requires Inv(s) && Enabled(s, Go(t)) && s' == Turn(s, t)
    ensures HeadStep(s, s', side)
  {
    hide Inv, AdvanceTurn, ReserveTurn, Available, Slot;
    assert Shaped(s) by {
      hide *;
      InvShaped(s);
    }
    match s.calls[t].pc {
      case Advance(head, scan) => ScanHead(s, t, s', side, head, scan);
      case Reserve(_, _) => ReserveHead(s, t, s', side);
      case _ =>
    }
  }

  lemma InvShaped<T>(s: State<T>)
    requires Inv(s)
    ensures Shaped(s) && LanesInv(s)
  {
  }

  lemma NextHead<T(!new)>(s: State<T>, s': State<T>, side: Side)
    requires Inv(s) && Next(s, s')
    ensures HeadStep(s, s', side)
  {
    hide Inv, Turn, Available;
    var a :| Enabled(s, a) && s' == Apply(s, a);
    if a.Go? {
      hide HeadStep;
      TurnHead(s, a.t, s', side);
    }
  }

  /** Right after a reservation there is not a whole lap to take. */
  lemma ReservedLap<T>(s: State<T>, s': State<T>, side: Side)
    requires LanesInv(s) && HeadStep(s, s', side) && s'.Own(side).head != s.Own(side).head
    ensures Available(s', side) < s.n
  {
    hide Tiled, RecordsInv, D.Usable;
  }

  /** A step keeps the head a call has loaded, or has just loaded it. */
  ghost predicate AttemptStep<T>(s: State<T>, s': State<T>, t: nat) {
    t in s'.calls && Attempting(s'.calls[t].pc) ==>
      || s'.Own(s'.calls[t].request.side).head == HeadOf(s'.calls[t].pc)
      || (t in s.calls && s'.calls[t].request == s.calls[t].request
          && Attempting(s.calls[t].pc) && HeadOf(s.calls[t].pc) == HeadOf(s'.calls[t].pc))
  }

  lemma TurnAttempt<T>(s: State<T>, t: nat, s': State<T>)
    requires Inv(s) && Enabled(s, Go(t)) && s' == Turn(s, t)
    ensures AttemptStep(s, s', t) && SameCalls(s, s', t)
  {
    hide Available, Slot, LaneInv, CarriesInv, CallsInv, ValuesInv, AdvanceTurn, ReserveTurn, CopyTurn, ClearTurn;
    hide D.ScanInv, D.Above, D.Honest;
    CallFacts(s, t);
    match s.calls[t].pc {
      case Advance(head, scan) => AdvanceAttempt(s, t, s', head, scan); AdvanceSteady(s, t, head, scan);
      case Reserve(head, available) => ReserveAttempt(s, t, s', head, available); ReserveSteady(s, t, head, available);
      case Copy(start, count, done) => CopyAttempt(s, t, s', start, count, done); CopySteady(s, t, start, count, done);
      case Clear(start, count, done) => ClearAttempt(s, t, s', start, count, done); ClearSteady(s, t, start, count, done);
      case _ =>
    }
  }

  lemma AdvanceAttempt<T>(s: State<T>, t: nat, s': State<T>, head: nat, scan: D.Scan)
    requires Shaped(s) && t in s.calls && s.calls[t].pc == Advance(head, scan)
    requires s' == AdvanceTurn(s, t, s.calls[t], head, scan)
    ensures AttemptStep(s, s', t)
  {
    hide Available, D.Step, D.Moved, D.Sub64;
  }

  lemma ReserveAttempt<T>(s: State<T>, t: nat, s': State<T>, head: nat, available: nat)
    requires t in s.calls && s' == ReserveTurn(s, t, s.calls[t], head, available)
    ensures AttemptStep(s, s', t)
  {
  }

  lemma CopyAttempt<T>(s: State<T>, t: nat, s': State<T>, start: nat, count: nat, done: nat)
    requires Shaped(s) && t in s.calls && s' == CopyTurn(s, t, s.calls[t], start, count, done)
    ensures AttemptStep(s, s', t)
  {
    hide Slot;
  }

  lemma ClearAttempt<T>(s: State<T>, t: nat, s': State<T>, start: nat, count: nat, done: nat)
    requires Shaped(s) && t in s.calls && s' == ClearTurn(s, t, s.calls[t], start, count, done)
    ensures AttemptStep(s, s', t)
  {
    hide Slot;
  }

  lemma NextAttempt<T(!new)>(s: State<T>, s': State<T>, t: nat)
    requires Inv(s) && Next(s, s')
    ensures AttemptStep(s, s', t)
    ensures t in s'.calls && t in s.calls ==> s'.calls[t].request == s.calls[t].request
  {
    hide Inv, Turn, Available, AttemptStep;
    if t in s'.calls {
      FewestStep(s, s', t);
    }
    var a :| Enabled(s, a) && s' == Apply(s, a);
    if a.Go? {
      TurnAttempt(s, a.t, s');
      if t != a.t {
        OtherAttempt(s, s', t);
      }
    } else {
      EdgeAttempt(s, a, s', t);
    }
  }

  lemma OtherAttempt<T>(s: State<T>, s': State<T>, t: nat)
    requires t in s'.calls ==> t in s.calls && s'.calls[t] == s.calls[t]
    ensures AttemptStep(s, s', t)
  {
  }

  lemma EdgeAttempt<T>(s: State<T>, a: Action<T>, s': State<T>, t: nat)
    requires Shaped(s) && Enabled(s, a) && !a.Go? && s' == Apply(s, a)
    ensures AttemptStep(s, s', t)
  {
    hide Available;
  }

  /** If the head has moved on since a call loaded it, there was less than a lap at an instant since. */
  lemma {:induction false} MovedInstant<T(!new)>(run: seq<State<T>>, i: nat, t: nat) returns (j: nat)
    requires Run(run) && i < |run| && t in run[i].calls && Attempting(run[i].calls[t].pc)
    requires run[i].Own(run[i].calls[t].request.side).head != HeadOf(run[i].calls[t].pc)
    ensures Met(run, i, t, j, run[i].n - 1)
  {
    hide Available, Next, HeadStep, Inv, Attempting, HeadOf;
    RunInv(run, 0);
    if i > 0 {
      var s, s', side := run[i - 1], run[i - 1 + 1], run[i].calls[t].request.side;
      assert Next(s, s');
      RunInv(run, i - 1);
      InvShaped(s);
      NextAttempt(s, s', t);
      NextHead(s, s', side);
      if s'.Own(side).head != s.Own(side).head {
        ReservedLap(s, s', side);
        j := i;
      } else {
        j := MovedInstant(run, i - 1, t);
      }
      NextKeeps(s, s');
    }
  }

  /** A refused transfer of a whole lap is honest whatever the other calls do. */
  lemma WholeLapHonest<T(!new)>(run: seq<State<T>>, i: nat, t: nat, side: Side) returns (j: nat)
    requires Run(run) && i < |run| && Refused(run, i, t, side, run[i].n)
    ensures Met(run, i, t, j, run[i].n - 1)
  {
    hide Inv, Available;
    RunInv(run, i);
    InvShaped(run[i]);
    if run[i].Own(side).head == run[i].calls[t].pc.start {
      j := ReportIsFresh(run, i, t);
    } else {
      j := MovedInstant(run, i, t);
    }
  }
}
