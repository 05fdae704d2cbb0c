/** No call of the multi-producer multi-consumer frontier queue waits for another: from every reachable state each call
    under way returns if it runs alone for long enough, wherever the other calls have stopped. */
module FrontierProgress {
  import opened Lanes
  import opened Records
  import D = Discovery
  import opened FrontierMPMC
  import opened FrontierInvariant
  import opened FrontierSafety
  import opened FrontierSteps
  import opened FrontierTheorems
  import opened FrontierBulk

  /** The state after `k` steps of call `t` in a row. */
  ghost function After<T>(s: State<T>, t: nat, k: nat): State<T>
    requires Shaped(s)
    decreases k
  {
    if k == 0 || t !in s.calls then s else After(Turn(s, t), t, k - 1)
  }

  // ---------------------------------------------------------------------------------------
  // How far a call is from its return

  /** A call that holds a head which others have moved has to load it once more. */
  function Behind<T>(s: State<T>, c: Call<T>): nat {
    var head := s.Own(c.request.side).head;
    match c.pc
    case LoadOpposite(h) => if h == head then 0 else 1
    case Advance(h, _) => if h == head then 0 else 1
    case Reserve(h, _) => if h == head then 0 else 1
    case _ => 0
  }

  function Phase(pc: PC): nat {
    match pc
    case LoadHead => 7
    case LoadOpposite(_) => 6
    case Advance(_, _) => 5
    case Reserve(_, _) => 4
    case Copy(_, _, _) => 3
    case Clear(_, _, _) => 2
    case Publish(_, _) => 1
    case Return(_, _) => 0
  }

  function ScanStage(l: Lane, scan: D.Scan): nat {
    match scan
    case LoadFrontier => 6
    case LoadBound(_) => 5
    case Chained(_, _, _, _) => 4
    case Ahead(_, _, _, _, _) => 4
    case Swap(current, _) => if current == l.frontier then 1 else 3
    case Reload(_) => 2
    case Final(_) => 0
  }

  function ScanLeft(scan: D.Scan): nat {
    match scan
    case Chained(base, window, end, _) => base + window - end
    case Ahead(base, window, end, _, _) => base + window - end
    case _ => 0
  }

  function AheadLeft(scan: D.Scan): nat {
    if !scan.Ahead? then 0 else if |scan.loaded| < LOOKAHEAD then 1 + LOOKAHEAD - |scan.loaded| else 1
  }

  function Stage<T>(s: State<T>, c: Call<T>): nat {
    if c.pc.Advance? then ScanStage(s.Opposite(c.request.side), c.pc.scan) else 0
  }

  function Left(pc: PC): nat {
    match pc
    case Advance(_, scan) => ScanLeft(scan)
    case Copy(_, count, done) => if done <= count then count - done else 0
    case Clear(_, count, done) => if done <= count then count - done else 0
    case _ => 0
  }

  function Inner(pc: PC): nat {
    if pc.Advance? then AheadLeft(pc.scan) else 0
  }

  ghost predicate Lower<T>(s: State<T>, c: Call<T>, s': State<T>, c': Call<T>) {
    || Behind(s', c') < Behind(s, c)
    || (Behind(s', c') == Behind(s, c)
        && (|| Phase(c'.pc) < Phase(c.pc)
            || (Phase(c'.pc) == Phase(c.pc)
                && (|| Stage(s', c') < Stage(s, c)
                    || (Stage(s', c') == Stage(s, c)
                        && (|| Left(c'.pc) < Left(c.pc)
                            || (Left(c'.pc) == Left(c.pc) && Inner(c'.pc) < Inner(c.pc))))))))
  }

  /** What a step of call `t` alone leaves of its request and of its head. */
  ghost predicate Steps<T>(s: State<T>, t: nat, s': State<T>) {
    && t in s.calls && t in s'.calls && s'.n == s.n && s'.calls[t].request == s.calls[t].request
    && Lower(s, s.calls[t], s', s'.calls[t])
    && (!InFlight(s'.calls[t].pc) && !s'.calls[t].pc.Return? ==>
          !InFlight(s.calls[t].pc) && s'.Own(s.calls[t].request.side).head == s.Own(s.calls[t].request.side).head)
  }

  // ---------------------------------------------------------------------------------------
  // Each step lowers it

  lemma ScanLowers(l: Lane, n: nat, scan: D.Scan)
    requires 0 < n == |l.records| && !scan.Final?
    ensures
      var l', scan' := D.Moved(l, scan), D.Step(l, n, scan);
      || ScanStage(l', scan') < ScanStage(l, scan)
      || (ScanStage(l', scan') == ScanStage(l, scan)
          && (|| ScanLeft(scan') < ScanLeft(scan)
              || (ScanLeft(scan') == ScanLeft(scan) && AheadLeft(scan') < AheadLeft(scan))))
  {
    hide Slot, D.Sub64;
    match scan {
      case Ahead(base, window, end, stride, loaded) => AheadLowers(l, n, scan);
      case Chained(base, window, end, _) => ChainedLowers(l, n, scan);
      case _ =>
    }
  }

  lemma ChainedLowers(l: Lane, n: nat, scan: D.Scan)
    requires 0 < n == |l.records| && scan.Chained?
    ensures
      var scan' := D.Step(l, n, scan);
      ScanStage(l, scan') < 4 || ((scan'.Chained? || scan'.Ahead?) && ScanLeft(scan') < ScanLeft(scan))
  {
    hide Slot;
  }

  lemma AheadLowers(l: Lane, n: nat, scan: D.Scan)
    requires 0 < n == |l.records| && scan.Ahead?
    ensures
      var scan' := D.Step(l, n, scan);
      || ScanStage(l, scan') < 4
      || (scan'.Chained? && ScanLeft(scan') <= ScanLeft(scan))
      || (scan'.Ahead? && ScanLeft(scan') == ScanLeft(scan) && AheadLeft(scan') < AheadLeft(scan))
  {
    hide Slot, AcceptAhead;
  }

  /** A head that is still the lane's admits: only a head that others have moved has to be loaded again. */
  lemma Admitted<T>(s: State<T>, side: Side)
    requires LanesInv(s)
    ensures Admits(side, s.n, s.Own(side).head, s.Opposite(side).frontier).Room?
  {
    OwnBounded(s, side);
    OppositeLap(s, side);
    AdmitsExactly(side, s.n, s.Own(side).head, s.Opposite(side).frontier);
    hide LaneInv, Admits;
  }

  lemma LoadLowers<T>(s: State<T>, t: nat, s': State<T>)
    requires LanesInv(s) && t in s.calls && (s.calls[t].pc.LoadHead? || s.calls[t].pc.LoadOpposite?) && s' == Turn(s, t)
    ensures Steps(s, t, s')
  {
    Admitted(s, s.calls[t].request.side);
    hide LanesInv, Admits, Available;
  }

  lemma AdvancedLowers<T>(s: State<T>, t: nat, s': State<T>, head: nat, scan: D.Scan)
    requires LanesInv(s) && t in s.calls && s.calls[t].pc == Advance(head, scan) && scan.Final?
    requires s' == s.With(t, AfterAdvance(s.calls[t], s.n, head, s.Opposite(s.calls[t].request.side).frontier))
    ensures Steps(s, t, s')
  {
    Admitted(s, s.calls[t].request.side);
    hide LanesInv, Admits, ScanStage, ScanLeft, AheadLeft, D.Sub64;
  }

  lemma ScanStepLowers<T>(s: State<T>, t: nat, s': State<T>, head: nat, scan: D.Scan)
    requires Shaped(s) && t in s.calls && s.calls[t].pc == Advance(head, scan) && !scan.Final?
    requires s' == AdvanceTurn(s, t, s.calls[t], head, scan)
    ensures Steps(s, t, s')
  {
    var side := s.calls[t].request.side;
    ScanLowers(s.Opposite(side), s.n, scan);
    hide Available, D.Step, D.Moved, ScanStage, ScanLeft, AheadLeft, AfterAdvance;
    assert s'.Own(side) == s.Own(side) && s'.Opposite(side) == D.Moved(s.Opposite(side), scan);
    assert s'.calls[t].pc == Advance(head, D.Step(s.Opposite(side), s.n, scan));
  }

  lemma AdvanceLowers<T>(s: State<T>, t: nat, s': State<T>, head: nat, scan: D.Scan)
    requires LanesInv(s) && t in s.calls && s.calls[t].pc == Advance(head, scan)
    requires s' == AdvanceTurn(s, t, s.calls[t], head, scan)
    ensures Steps(s, t, s')
  {
    hide Steps, LaneInv, Available, AfterAdvance;
    if scan.Final? {
      AdvancedLowers(s, t, s', head, scan);
    } else {
      ScanStepLowers(s, t, s', head, scan);
    }
  }

  lemma ReserveLowers<T>(s: State<T>, t: nat, s': State<T>, head: nat, available: nat)
    requires t in s.calls && s.calls[t].pc == Reserve(head, available)
    requires s' == ReserveTurn(s, t, s.calls[t], head, available)
    ensures Steps(s, t, s')
  {
  }

  lemma CopyLowers<T>(s: State<T>, t: nat, s': State<T>, start: nat, count: nat, done: nat)
    requires Shaped(s) && t in s.calls && s.calls[t].pc == Copy(start, count, done)
    requires s' == CopyTurn(s, t, s.calls[t], start, count, done)
    ensures Steps(s, t, s')
  {
    hide Slot;
  }

  lemma ClearLowers<T>(s: State<T>, t: nat, s': State<T>, start: nat, count: nat, done: nat)
    requires Shaped(s) && t in s.calls && s.calls[t].pc == Clear(start, count, done)
    requires s' == ClearTurn(s, t, s.calls[t], start, count, done)
    ensures Steps(s, t, s')
  {
    hide Slot;
  }

  lemma PublishLowers<T>(s: State<T>, t: nat, s': State<T>)
    requires Shaped(s) && t in s.calls && s.calls[t].pc.Publish? && s' == Turn(s, t)
    ensures Steps(s, t, s')
  {
    hide Slot;
  }

  lemma TurnLowers<T>(s: State<T>, t: nat, s': State<T>)
    requires LanesInv(s) && t in s.calls && !s.calls[t].pc.Return? && s' == Turn(s, t)
    ensures Steps(s, t, s')
  {
    hide LaneInv, Steps, Available, AdvanceTurn, ReserveTurn, CopyTurn, ClearTurn, Slot;
    match s.calls[t].pc {
      case LoadHead => LoadLowers(s, t, s');
      case LoadOpposite(_) => LoadLowers(s, t, s');
      case Advance(head, scan) => AdvanceLowers(s, t, s', head, scan);
      case Reserve(head, available) => ReserveLowers(s, t, s', head, available);
      case Copy(start, count, done) => CopyLowers(s, t, s', start, count, done);
      case Clear(start, count, done) => ClearLowers(s, t, s', start, count, done);
      case Publish(_, _) => PublishLowers(s, t, s');
    }
  }

  // ---------------------------------------------------------------------------------------
  // So it returns

  /** No position overflows uint64 when the call reserves. */
  ghost predicate Roomy<T>(s: State<T>, t: nat) {
    && t in s.calls
    && (InFlight(s.calls[t].pc) || s.calls[t].pc.Return? || s.Own(s.calls[t].request.side).head + s.n < D.U64)
  }

  lemma RoomyStays<T>(s: State<T>, t: nat, s': State<T>)
    requires Steps(s, t, s') && Roomy(s, t) && !s.calls[t].pc.Return?
    ensures Roomy(s', t)
  {
    hide Lower;
  }

  lemma RoomyEnabled<T>(s: State<T>, t: nat)
    requires Roomy(s, t) && !s.calls[t].pc.Return?
    ensures Enabled(s, Go(t))
  {
  }

  lemma StepsLower<T>(s: State<T>, t: nat, s': State<T>)
    requires Steps(s, t, s')
    ensures t in s.calls && t in s'.calls && Lower(s, s.calls[t], s', s'.calls[t])
  {
    hide Lower;
  }

  lemma {:induction false} AloneReturns<T>(s: State<T>, t: nat) returns (k: nat)
    requires Inv(s) && t in s.calls && Roomy(s, t)
    ensures Shaped(s) && t in After(s, t, k).calls && After(s, t, k).calls[t].pc.Return?
    decreases Behind(s, s.calls[t]), Phase(s.calls[t].pc), Stage(s, s.calls[t]), Left(s.calls[t].pc), Inner(s.calls[t].pc)
  {
    hide Inv, Roomy, Turn, After, Steps, Behind, Phase, Stage, Left, Inner;
    InvShaped(s);
    if s.calls[t].pc.Return? {
      k := 0;
      NoSteps(s, t);
    } else {
      var s' := Turn(s, t);
      TurnLowers(s, t, s');
      RoomyEnabled(s, t);
      TurnKeeps(s, t, s');
      RoomyStays(s, t, s');
      StepsLower(s, t, s');
      var rest := AloneReturns(s', t);
      k := rest + 1;
      MoreSteps(s, t, rest);
    }
  }

  lemma NoSteps<T>(s: State<T>, t: nat)
    requires Shaped(s)
    ensures After(s, t, 0) == s
  {
  }

  lemma MoreSteps<T>(s: State<T>, t: nat, k: nat)
    requires Shaped(s) && t in s.calls
    ensures After(s, t, k + 1) == After(Turn(s, t), t, k)
  {
    hide Turn;
  }

  /** In every state of every run, whatever the other calls are in the middle of, each call returns if it runs alone. */
  lemma NoCallWaits<T(!new)>(run: seq<State<T>>, i: nat, t: nat) returns (k: nat)
    requires Run(run) && i < |run| && t in run[i].calls && Roomy(run[i], t)
    ensures Shaped(run[i]) && t in After(run[i], t, k).calls && After(run[i], t, k).calls[t].pc.Return?
  {
    hide Inv, After, Roomy;
    RunInv(run, i);
    k := AloneReturns(run[i], t);
  }
}
