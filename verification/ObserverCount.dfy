/** Count on the MPSC queue: an observer that rebuilds 64-bit positions from the consumer's packed 32-bit
    word, follows completion records past it, and may retain what it proved. Producers reserve within the
    capacity past the released position; the consumer owns its cursor and frontier and publishes both in
    one word. A step is one shared access. */
module ObserverCount {
  import opened Lanes
  import opened Words32

  /** `lane.frontier` is the consumer's own frontier, `cursor` its released position and `shown` the
      frontier in the published word. `retained` is the shared observer position. */
  datatype State = State(
    n: nat, lane: Lane, cursor: nat, shown: nat, retained: nat, calls: map<nat, PC>)

  /** What Count has decided before it looks at the consumer again. */
  datatype Observation = Observation(result: nat, retain: bool, observed: nat, end: nat)

  datatype PC =
    | LoadWord
    | LoadHead(released: nat, frontier: nat)
    | LoadRetained(released: nat, frontier: nat, cursor: nat, limit: nat)
    | Scan(released: nat, frontier: nat, cursor: nat, limit: nat, observed: nat, end: nat)
    | Validate(released: nat, frontier: nat, seen: Observation)
    | Publish(result: nat, observed: nat, end: nat)
    | Returned(result: nat)

  function Min(a: nat, b: nat): nat {
    if a <= b then a else b
  }

  /** What the consumer has acquired, from the words alone. */
  function Acquired(released: nat, frontier: nat): nat {
    Sub32(W(frontier), W(released))
  }

  /** After the head load: the cursor is rebuilt from the head and the low half of the released position. */
  function AfterHead(n: nat, released: nat, frontier: nat, head: nat): PC {
    var acquired := Acquired(released, frontier);
    var distance := Sub32(W(head), W(released));
    var plain := Validate(released, frontier, Observation(Min(acquired, n), false, 0, 0));
    if distance > head then plain
    else
      var cursor, limit := head - distance, Min(distance, n);
      if acquired > limit then plain
      else if acquired < limit then LoadRetained(released, frontier, cursor, limit)
      else Validate(released, frontier, Observation(acquired, false, 0, cursor + acquired))
  }

  function Scanning(released: nat, frontier: nat, cursor: nat, limit: nat, observed: nat, end: nat): PC {
    if end - cursor < limit then Scan(released, frontier, cursor, limit, observed, end)
    else Validate(released, frontier, Observation(if end >= cursor then end - cursor else 0, true, observed, end))
  }

  function Turn(s: State, pc: PC): PC
    requires s.n > 0 && |s.lane.records| == s.n
  {
    match pc
    case LoadWord =>
      if Acquired(s.cursor, s.shown) == s.n then Validate(s.cursor, s.shown, Observation(s.n, false, 0, 0))
      else LoadHead(s.cursor, s.shown)
    case LoadHead(released, frontier) => AfterHead(s.n, released, frontier, s.lane.head)
    case LoadRetained(released, frontier, cursor, limit) =>
      var end := cursor + Acquired(released, frontier);
      Scanning(released, frontier, cursor, limit, s.retained,
               if s.retained >= end && s.retained - cursor <= limit then s.retained else end)
    case Scan(released, frontier, cursor, limit, observed, end) =>
      var v := s.lane.records[Slot(end, s.n)];
      if v <= end || v - end > limit - (end - cursor) then
        Validate(released, frontier, Observation(if end >= cursor then end - cursor else 0, true, observed, end))
      else Scanning(released, frontier, cursor, limit, observed, v)
    case Validate(released, frontier, seen) =>
      if W(s.cursor) != W(released) || W(s.shown) != W(frontier) then Returned(Min(Acquired(s.cursor, s.shown), s.n))
      else if seen.retain && seen.end > seen.observed then Publish(seen.result, seen.observed, seen.end)
      else Returned(seen.result)
    case Publish(result, _, _) => Returned(result)
    case Returned(_) => pc
  }

  datatype Action =
    | Reserve(count: nat)
    | Finish(start: nat)
    | Discover
    | Store
    | Release(count: nat)
    | Begin(t: nat)
    | Go(t: nat)
    | End(t: nat)

  ghost predicate Enabled(s: State, x: Action) {
    && s.n > 0 && |s.lane.records| == s.n
    && match x
       case Reserve(count) => 0 < count && s.lane.head + count <= s.cursor + s.n
       case Finish(start) => start in s.lane.reserved && start !in s.lane.finished
       case Discover => true
       case Store => true
       case Release(count) => 0 < count && s.cursor + count <= s.lane.frontier
       case Begin(t) => t !in s.calls
       case Go(t) => t in s.calls && (s.calls[t].LoadHead? ==> s.lane.head < s.calls[t].released + CYCLE)
       case End(t) => t in s.calls && s.calls[t].Returned?
  }

  ghost function Apply(s: State, x: Action): State
    requires Enabled(s, x)
  {
    match x
    case Reserve(count) => s.(lane := s.lane.Reserve(count))
    case Finish(start) => s.(lane := s.lane.Finish(start, s.lane.reserved[start]))
    case Discover =>
      var v := s.lane.records[Slot(s.lane.frontier, s.n)];
      if s.lane.frontier < v <= s.cursor + s.n then s.(lane := s.lane.Raise(v)) else s
    case Store => s.(shown := s.lane.frontier)
    case Release(count) => s.(cursor := s.cursor + count, shown := s.lane.frontier)
    case Begin(t) => s.(calls := s.calls[t := LoadWord])
    case Go(t) =>
      var pc := s.calls[t];
      var retained := if pc.Publish? && s.retained == pc.observed then pc.end else s.retained;
      s.(retained := retained, calls := s.calls[t := Turn(s, pc)])
    case End(t) => s.(calls := s.calls - {t})
  }

  ghost predicate Init(s: State) {
    0 < s.n <= 0x4000_0000 && s.lane == InitLane(s.n) && s.cursor == s.shown == s.retained == 0 && s.calls == map[]
  }

  ghost predicate Next(s: State, s': State) {
    exists x :: Enabled(s, x) && s' == Apply(s, x)
  }

  ghost predicate Run(run: seq<State>) {
    && |run| > 0 && Init(run[0])
    && forall i | 0 <= i < |run| - 1 :: Next(run[i], run[i + 1])
  }

  // ---------------------------------------------------------------------------------------
  // The invariant

  /** A word the consumer once published. */
  ghost predicate Published(n: nat, l: Lane, released: nat, frontier: nat) {
    released <= frontier <= released + n && Proven(l, frontier)
  }

  /** An end the observer may retain: a boundary with everything below it finished, counted from the true
      released position and within the capacity. */
  ghost predicate Counted(n: nat, l: Lane, released: nat, limit: nat, end: nat) {
    Proven(l, end) && released <= end <= released + limit && limit <= n
  }

  ghost predicate CallOk(s: State, pc: PC) {
    match pc
    case LoadWord => true
    case LoadHead(r, f) => r <= s.cursor && Published(s.n, s.lane, r, f) && f <= s.shown
    case LoadRetained(r, f, cursor, limit) =>
      cursor == r <= s.cursor && Published(s.n, s.lane, r, f) && f <= s.shown && f - r < limit <= s.n
    case Scan(r, f, cursor, limit, observed, end) =>
      && cursor == r <= s.cursor && Published(s.n, s.lane, r, f) && f <= s.shown && observed <= s.retained
      && Counted(s.n, s.lane, r, limit, end) && end - cursor < limit
    case Validate(r, f, seen) =>
      && r <= s.cursor && Published(s.n, s.lane, r, f) && f <= s.shown && seen.result <= s.n
      && (seen.retain ==> Counted(s.n, s.lane, r, s.n, seen.end) && seen.observed <= s.retained && seen.result == seen.end - r)
    case Publish(result, observed, end) => result <= s.n && Proven(s.lane, end) && observed <= s.retained && observed < end
    case Returned(result) => result <= s.n
  }

  ghost predicate Inv(s: State) {
    && 0 < s.n <= 0x4000_0000 && LaneInv(s.lane, s.n, s.cursor)
    && s.cursor <= s.shown <= s.lane.frontier && Proven(s.lane, s.shown) && Proven(s.lane, s.retained)
    && (forall t | t in s.calls :: CallOk(s, s.calls[t]))
  }

  lemma CallStable(s: State, s': State, pc: PC)
    requires CallOk(s, pc) && s'.n == s.n && Grows(s.lane, s'.lane) && s.cursor <= s'.cursor && s.retained <= s'.retained && s.shown <= s'.shown
    ensures CallOk(s', pc)
  {
    forall e | Proven(s.lane, e) ensures Proven(s'.lane, e) {
      ProvenStable(s.lane, s'.lane, e);
    }
    hide Proven, Grows;
  }

  lemma CallsStable(s: State, s': State)
    requires (forall t | t in s.calls :: CallOk(s, s.calls[t])) && s'.calls == s.calls
    requires s'.n == s.n && Grows(s.lane, s'.lane) && s.cursor <= s'.cursor && s.retained <= s'.retained && s.shown <= s'.shown
    ensures forall t | t in s'.calls :: CallOk(s', s'.calls[t])
  {
    forall t | t in s'.calls ensures CallOk(s', s'.calls[t]) {
      CallStable(s, s', s.calls[t]);
    }
  }

  // ---------------------------------------------------------------------------------------
  // Producers and the consumer

  lemma LaneStep(s: State, x: Action, s': State)
    requires Inv(s) && (x.Reserve? || x.Finish? || x.Discover?) && Enabled(s, x) && s' == Apply(s, x)
    ensures Inv(s') && Grows(s.lane, s'.lane)
  {
    LaneMoves(s, x, s');
    ProvenStable(s.lane, s'.lane, s.shown);
    ProvenStable(s.lane, s'.lane, s.retained);
    hide LaneInv, Proven, Grows, CallOk, Apply, Enabled;
    CallsStable(s, s');
  }

  lemma LaneMoves(s: State, x: Action, s': State)
    requires Inv(s) && (x.Reserve? || x.Finish? || x.Discover?) && Enabled(s, x) && s' == Apply(s, x)
    ensures LaneInv(s'.lane, s.n, s.cursor) && Grows(s.lane, s'.lane) && s.shown <= s.lane.frontier <= s'.lane.frontier
    ensures s' == s.(lane := s'.lane)
  {
    hide Proven, CallOk;
    match x {
      case Reserve(count) => ReserveKeeps(s.lane, s.n, s.cursor, count);
      case Finish(start) => FinishKeeps(s.lane, s.n, s.cursor, start);
      case Discover => DiscoverKeeps(s);
    }
    hide LaneInv, Grows;
  }

  lemma DiscoverKeeps(s: State)
    requires Inv(s)
    ensures
      var v := s.lane.records[Slot(s.lane.frontier, s.n)];
      && Grows(s.lane, s.lane)
      && (s.lane.frontier < v <= s.cursor + s.n ==> LaneInv(s.lane.Raise(v), s.n, s.cursor) && Grows(s.lane, s.lane.Raise(v)))
  {
    var f := s.lane.frontier;
    var v := s.lane.records[Slot(f, s.n)];
    GrowsReflexive(s.lane);
    if f < v <= s.cursor + s.n {
      AcceptedEnd(s.lane, s.n, s.cursor, f, v);
      RaiseKeeps(s.lane, s.n, s.cursor, v);
    }
  }

  lemma ConsumerStep(s: State, x: Action, s': State)
    requires Inv(s) && (x.Store? || x.Release?) && Enabled(s, x) && s' == Apply(s, x)
    ensures Inv(s') && Grows(s.lane, s'.lane) && s.shown <= s'.shown
  {
    GrowsReflexive(s.lane);
    assert Proven(s.lane, s.lane.frontier);
    if x.Release? {
      ReuseKeeps(s.lane, s.n, s.cursor, s'.cursor);
    }
    hide LaneInv, Proven, Grows, CallOk;
    CallsStable(s, s');
  }

  // ---------------------------------------------------------------------------------------
  // The observer

  /** The acquired count read from two words is the true one. */
  lemma AcquiredExact(released: nat, frontier: nat)
    requires released <= frontier < released + CYCLE
    ensures Acquired(released, frontier) == frontier - released
  {
    Lap(released, frontier);
  }

  /** The cursor rebuilt from the head and 32 bits is the true released position. */
  lemma RebuiltCursor(n: nat, released: nat, frontier: nat, head: nat)
    requires released <= frontier <= head < released + CYCLE && frontier <= released + n && n <= 0x4000_0000
    ensures
      var pc := AfterHead(n, released, frontier, head);
      && (pc.LoadRetained? ==> pc.cursor == released && pc.limit == Min(head - released, n) && frontier - released < pc.limit
                               && pc.released == released && pc.frontier == frontier)
      && (pc.LoadRetained? || (&& frontier - released == Min(head - released, n)
                               && pc == Validate(released, frontier, Observation(frontier - released, false, 0, frontier))))
  {
    Lap(released, head);
    AcquiredExact(released, frontier);
    hide W, Sub32;
  }

  lemma ShownBounds(s: State)
    requires Inv(s)
    ensures s.cursor <= s.shown <= s.cursor + s.n && s.shown <= s.lane.head && Published(s.n, s.lane, s.cursor, s.shown)
    ensures Acquired(s.cursor, s.shown) == s.shown - s.cursor
  {
    AcquiredExact(s.cursor, s.shown);
  }

  lemma WordTurn(s: State)
    requires Inv(s)
    ensures CallOk(s, Turn(s, LoadWord))
  {
    ShownBounds(s);
    hide LaneInv, Proven, Acquired;
  }

  lemma HeadTurn(s: State, pc: PC)
    requires Inv(s) && pc.LoadHead? && CallOk(s, pc) && s.lane.head < pc.released + CYCLE
    ensures CallOk(s, Turn(s, pc))
  {
    assert pc.frontier <= s.lane.head;
    RebuiltCursor(s.n, pc.released, pc.frontier, s.lane.head);
    hide AfterHead, LaneInv, Proven, Acquired;
  }

  lemma ScanningOk(s: State, r: nat, f: nat, limit: nat, observed: nat, end: nat)
    requires r <= s.cursor && Published(s.n, s.lane, r, f) && f <= s.shown && observed <= s.retained && Counted(s.n, s.lane, r, limit, end)
    ensures CallOk(s, Scanning(r, f, r, limit, observed, end))
  {
    hide Proven;
  }

  lemma RetainedTurn(s: State, pc: PC)
    requires Inv(s) && pc.LoadRetained? && CallOk(s, pc)
    ensures CallOk(s, Turn(s, pc))
  {
    AcquiredExact(pc.released, pc.frontier);
    hide LaneInv, Proven, Acquired;
    var end := if s.retained >= pc.frontier && s.retained - pc.cursor <= pc.limit then s.retained else pc.frontier;
    ScanningOk(s, pc.released, pc.frontier, pc.limit, s.retained, end);
    hide Scanning;
  }

  lemma ScanTurn(s: State, pc: PC)
    requires Inv(s) && pc.Scan? && CallOk(s, pc)
    ensures CallOk(s, Turn(s, pc))
  {
    var r, f, limit, end := pc.released, pc.frontier, pc.limit, pc.end;
    var v := s.lane.records[Slot(end, s.n)];
    if end < v <= end + s.n {
      AcceptedEnd(s.lane, s.n, s.cursor, end, v);
    }
    hide LaneInv, Proven, Slot;
    if end < v && v - end <= limit - (end - r) {
      ScanningOk(s, r, f, limit, pc.observed, v);
    }
    hide Scanning;
  }

  lemma ValidateTurn(s: State, pc: PC)
    requires Inv(s) && (pc.Validate? || pc.Returned? || pc.Publish?) && CallOk(s, pc)
    ensures CallOk(s, Turn(s, pc))
  {
    hide LaneInv, Proven, Acquired, W;
  }

  lemma TurnKeeps(s: State, pc: PC)
    requires Inv(s) && CallOk(s, pc) && (pc.LoadHead? ==> s.lane.head < pc.released + CYCLE)
    ensures CallOk(s, Turn(s, pc))
  {
    hide Inv, CallOk, Turn;
    LaneShape(s);
    match pc
    case LoadWord => WordTurn(s);
    case LoadHead(_, _) => HeadTurn(s, pc);
    case LoadRetained(_, _, _, _) => RetainedTurn(s, pc);
    case Scan(_, _, _, _, _, _) => ScanTurn(s, pc);
    case _ => ValidateTurn(s, pc);
  }

  lemma LaneShape(s: State)
    requires Inv(s)
    ensures s.n > 0 && |s.lane.records| == s.n
  {
  }

  lemma GoInv(s: State, t: nat, s': State)
    requires Inv(s) && Enabled(s, Go(t)) && s' == Apply(s, Go(t))
    ensures Inv(s') && s.retained <= s'.retained && s'.lane == s.lane && s'.shown == s.shown
  {
    TurnKeeps(s, s.calls[t]);
    GrowsReflexive(s.lane);
    assert CallOk(s, s.calls[t]);
    assert s.retained <= s'.retained && Proven(s'.lane, s'.retained);
    hide LaneInv, Proven, Grows, Turn;
    var middle := s.(calls := s.calls[t := Turn(s, s.calls[t])]);
    hide CallOk;
    forall u | u in s'.calls ensures CallOk(s', s'.calls[u]) {
      SameButCalls(s, middle, s'.calls[u]);
      CallStable(middle, s', s'.calls[u]);
    }
  }

  lemma SameButCalls(s: State, s': State, pc: PC)
    requires CallOk(s, pc) && s'.n == s.n && s'.lane == s.lane && s'.cursor == s.cursor && s'.shown == s.shown && s'.retained == s.retained
    ensures CallOk(s', pc)
  {
  }

  lemma EdgeInv(s: State, x: Action, s': State)
    requires Inv(s) && (x.Begin? || x.End?) && Enabled(s, x) && s' == Apply(s, x)
    ensures Inv(s') && s'.lane == s.lane
  {
    hide LaneInv, Proven;
    forall u | u in s'.calls ensures CallOk(s', s'.calls[u]) {
      if u in s.calls {
        SameButCalls(s, s', s.calls[u]);
      }
    }
  }

  /** What no step undoes. */
  ghost predicate Onward(s: State, s': State) {
    s'.n == s.n && Grows(s.lane, s'.lane) && s.retained <= s'.retained && s.cursor <= s'.cursor && s.shown <= s'.shown
  }

  lemma StepInv(s: State, x: Action, s': State)
    requires Inv(s) && Enabled(s, x) && s' == Apply(s, x)
    ensures Inv(s') && Onward(s, s')
  {
    GrowsReflexive(s.lane);
    hide Inv, Grows;
    match x
    case Go(t) => GoInv(s, t, s');
    case Begin(_) => EdgeInv(s, x, s');
    case End(_) => EdgeInv(s, x, s');
    case Store => ConsumerStep(s, x, s');
    case Release(_) => ConsumerStep(s, x, s');
    case _ => LaneStep(s, x, s');
  }

  lemma InitInv(s: State)
    requires Init(s)
    ensures Inv(s)
  {
    InitLaneInv(s.n);
  }

  lemma {:induction false} RunInv(run: seq<State>, i: nat)
    requires Run(run) && i < |run|
    ensures Inv(run[i])
  {
    hide Inv, Init, Enabled, Apply;
    if i == 0 {
      InitInv(run[0]);
    } else {
      RunInv(run, i - 1);
      assert Next(run[i - 1], run[i - 1 + 1]);
      var x :| Enabled(run[i - 1], x) && run[i] == Apply(run[i - 1], x);
      StepInv(run[i - 1], x, run[i]);
    }
  }

  lemma {:induction false} RunOnward(run: seq<State>, i: nat, j: nat)
    requires Run(run) && i <= j < |run|
    ensures Onward(run[i], run[j])
  {
    hide Inv, Init, Enabled, Apply, Grows;
    if i == j {
      GrowsReflexive(run[i].lane);
    } else {
      RunOnward(run, i, j - 1);
      RunInv(run, j - 1);
      assert Next(run[j - 1], run[j - 1 + 1]);
      var x :| Enabled(run[j - 1], x) && run[j] == Apply(run[j - 1], x);
      StepInv(run[j - 1], x, run[j]);
      GrowsTransitive(run[i].lane, run[j - 1].lane, run[j].lane);
    }
  }

  // ---------------------------------------------------------------------------------------
  // Promises

  /** The retained position is a reservation boundary with everything below it finished. */
  lemma RetainedProven(run: seq<State>, i: nat)
    requires Run(run) && i < |run|
    ensures Proven(run[i].lane, run[i].retained)
  {
    RunInv(run, i);
  }

  /** It never decreases, and stays proved. */
  lemma RetainedMonotone(run: seq<State>, i: nat, j: nat)
    requires Run(run) && i <= j < |run|
    ensures run[i].retained <= run[j].retained && Proven(run[j].lane, run[i].retained)
  {
    RunOnward(run, i, j);
    RunInv(run, i);
    ProvenStable(run[i].lane, run[j].lane, run[i].retained);
  }

  /** Every count is at most the capacity. */
  lemma CountBounded(run: seq<State>, i: nat, t: nat)
    requires Run(run) && i < |run| && t in run[i].calls && run[i].calls[t].Returned?
    ensures run[i].calls[t].result <= run[i].n
  {
    RunInv(run, i);
  }

  /** The cursor an observer works with is the released position it loaded, in all 64 bits. */
  lemma CursorExact(run: seq<State>, i: nat, t: nat)
    requires Run(run) && i < |run| && t in run[i].calls && (run[i].calls[t].LoadRetained? || run[i].calls[t].Scan?)
    ensures run[i].calls[t].cursor == run[i].calls[t].released <= run[i].cursor
  {
    RunInv(run, i);
  }

  /** A count that finds the consumer unchanged counts finished, unreleased positions: everything from the
      released position up to the counted end is finished and still held. */
  lemma UnchangedCountsFinished(run: seq<State>, i: nat, t: nat)
    requires Run(run) && i < |run| && t in run[i].calls && run[i].calls[t].Validate? && run[i].calls[t].seen.retain
    requires
      var pc := run[i].calls[t];
      && run[i].cursor < pc.released + CYCLE && run[i].shown < pc.frontier + CYCLE
      && W(run[i].cursor) == W(pc.released) && W(run[i].shown) == W(pc.frontier)
    ensures
      var pc := run[i].calls[t];
      && pc.released == run[i].cursor && pc.frontier == run[i].shown
      && Proven(run[i].lane, run[i].cursor + pc.seen.result)
  {
    hide Run, Inv, W, Proven, LaneInv, CallOk;
    RunInv(run, i);
    ValidateKnows(run[i], t);
    var pc := run[i].calls[t];
    Lap(pc.released, run[i].cursor);
    Lap(pc.frontier, run[i].shown);
  }

  /** What the invariant says of a count about to be validated. */
  lemma ValidateKnows(s: State, t: nat)
    requires Inv(s) && t in s.calls && s.calls[t].Validate? && s.calls[t].seen.retain
    ensures
      var pc := s.calls[t];
      && pc.released <= s.cursor && pc.frontier <= s.shown
      && Proven(s.lane, pc.released + pc.seen.result)
  {
    assert CallOk(s, s.calls[t]);
    hide LaneInv, Proven;
  }
}
