/** Count on the MPSC queue with nothing else moving: it answers exactly what is finished and not released. */
module ObserverQuiet {
  import opened Lanes
  import opened Words32
  import D = Discovery
  import opened ObserverCount

  /** Count `t` begins at `from`, and up to `i` nothing else steps. */
  ghost predicate Alone(run: seq<State>, t: nat, from: nat, i: nat) {
    && from < i < |run| && t !in run[from].calls && t in run[from + 1].calls
    && forall k | from < k < i :: Enabled(run[k], Go(t)) && run[k + 1] == Apply(run[k], Go(t))
  }

  /** What a Count that runs alone since `s0` knows. */
  ghost predicate QuietInv(s0: State, s: State, t: nat) {
    && t in s.calls && s.n == s0.n && s.lane == s0.lane && s.cursor == s0.cursor && s.shown == s0.shown
    && var backlog := D.Usable(s0.lane) - s0.cursor;
       match s.calls[t]
       case LoadWord => true
       case LoadHead(r, f) => r == s.cursor && f == s.shown
       case LoadRetained(r, f, _, limit) => r == s.cursor && f == s.shown && limit == s.lane.head - s.cursor
       case Scan(r, f, _, limit, _, _) => r == s.cursor && f == s.shown && limit == s.lane.head - s.cursor
       case Validate(r, f, seen) => r == s.cursor && f == s.shown && seen.result == backlog
       case Publish(result, _, _) => result == backlog
       case Returned(result) => result == backlog
  }

  /** With everything below `e` finished, and `e` the head or an unfinished start, `e` is how far the lane is. */
  lemma UsableIs(l: Lane, e: nat)
    requires Proven(l, e) && (e == l.head || (e in l.reserved && e !in l.finished))
    ensures D.Usable(l) == e
  {
    assert D.Blocked(l, e);
    assert forall p: nat | p < e :: !D.Blocked(l, p);
  }

  lemma HeadWithin(s: State)
    requires Inv(s)
    ensures s.cursor <= s.shown <= s.lane.frontier <= s.lane.head <= s.cursor + s.n && Proven(s.lane, s.shown)
  {
    hide Tiled, RecordsInv, CallOk;
  }

  lemma WordQuiet(s: State, t: nat)
    requires Inv(s)
    ensures
      var pc := Turn(s, LoadWord);
      || pc == LoadHead(s.cursor, s.shown)
      || (pc.Validate? && pc.released == s.cursor && pc.frontier == s.shown && pc.seen.result == D.Usable(s.lane) - s.cursor)
  {
    ShownBounds(s);
    HeadWithin(s);
    hide Inv, Acquired;
    if s.shown - s.cursor == s.n {
      UsableIs(s.lane, s.shown);
    }
  }

  lemma HeadQuiet(s: State)
    requires Inv(s)
    ensures
      var pc := AfterHead(s.n, s.cursor, s.shown, s.lane.head);
      || (pc.LoadRetained? && pc.released == s.cursor && pc.frontier == s.shown && pc.limit == s.lane.head - s.cursor)
      || (pc.Validate? && pc.released == s.cursor && pc.frontier == s.shown && pc.seen.result == D.Usable(s.lane) - s.cursor)
  {
    HeadWithin(s);
    Small(s);
    hide Inv, AfterHead;
    RebuiltCursor(s.n, s.cursor, s.shown, s.lane.head);
    if s.shown == s.lane.head {
      UsableIs(s.lane, s.shown);
    }
  }

  lemma Small(s: State)
    requires Inv(s)
    ensures 0 < s.n <= 0x4000_0000
  {
  }

  /** The scan goes on, or has come to where the lane is. */
  lemma ScanningQuiet(s: State, observed: nat, end: nat)
    requires Inv(s) && Proven(s.lane, end) && s.cursor <= end
    ensures
      var pc := Scanning(s.cursor, s.shown, s.cursor, s.lane.head - s.cursor, observed, end);
      || (pc.Scan? && pc.released == s.cursor && pc.frontier == s.shown && pc.limit == s.lane.head - s.cursor)
      || (pc.Validate? && pc.released == s.cursor && pc.frontier == s.shown && pc.seen.result == D.Usable(s.lane) - s.cursor)
  {
    HeadWithin(s);
    hide Inv;
    if end == s.lane.head {
      UsableIs(s.lane, end);
    }
  }

  lemma RetainedQuiet(s: State, pc: PC)
    requires Inv(s) && pc.LoadRetained? && CallOk(s, pc)
    requires pc.released == s.cursor && pc.frontier == s.shown && pc.limit == s.lane.head - s.cursor
    ensures
      var pc' := Turn(s, pc);
      || (pc'.Scan? && pc'.released == s.cursor && pc'.frontier == s.shown && pc'.limit == s.lane.head - s.cursor)
      || (pc'.Validate? && pc'.released == s.cursor && pc'.frontier == s.shown && pc'.seen.result == D.Usable(s.lane) - s.cursor)
  {
    ShownBounds(s);
    HeadWithin(s);
    assert Proven(s.lane, s.retained);
    var end := if s.retained >= pc.frontier && s.retained - pc.cursor <= pc.limit then s.retained else pc.frontier;
    ScanningQuiet(s, s.retained, end);
    hide Inv, Acquired, Scanning, Proven;
  }

  lemma ScanQuiet(s: State, pc: PC)
    requires Inv(s) && pc.Scan? && CallOk(s, pc)
    requires pc.released == s.cursor && pc.frontier == s.shown && pc.limit == s.lane.head - s.cursor
    ensures
      var pc' := Turn(s, pc);
      || (pc'.Scan? && pc'.released == s.cursor && pc'.frontier == s.shown && pc'.limit == s.lane.head - s.cursor)
      || (pc'.Validate? && pc'.released == s.cursor && pc'.frontier == s.shown && pc'.seen.result == D.Usable(s.lane) - s.cursor)
  {
    var v, end := s.lane.records[Slot(pc.end, s.n)], pc.end;
    HeadWithin(s);
    assert Proven(s.lane, end) && s.cursor <= end < s.lane.head;
    if end < v <= s.lane.head {
      AcceptedEnd(s.lane, s.n, s.cursor, end, v);
      ScanningQuiet(s, pc.observed, v);
    } else {
      RefusedRecord(s.lane, s.n, s.cursor, end, s.lane.head);
      UsableIs(s.lane, end);
    }
    hide Inv, Scanning, Proven, Slot;
  }

  lemma QuietStep(s0: State, s: State, t: nat, s': State)
    requires Inv(s) && QuietInv(s0, s, t) && Enabled(s, Go(t)) && s' == Apply(s, Go(t))
    ensures QuietInv(s0, s', t)
  {
    hide LaneInv, Proven, Scanning, AfterHead, Acquired, Slot;
    assert CallOk(s, s.calls[t]);
    match s.calls[t] {
      case LoadWord => WordQuiet(s, t);
      case LoadHead(_, _) => HeadQuiet(s);
      case LoadRetained(_, _, _, _) => RetainedQuiet(s, s.calls[t]);
      case Scan(_, _, _, _, _, _) => ScanQuiet(s, s.calls[t]);
      case _ =>
    }
    hide Inv, CallOk;
  }

  lemma QuietBegin(s0: State, s: State, t: nat)
    requires Next(s0, s) && t !in s0.calls && t in s.calls
    ensures QuietInv(s0, s, t)
  {
    hide Turn;
    var x :| Enabled(s0, x) && s == Apply(s0, x);
  }

  lemma {:induction false} QuietRun(run: seq<State>, t: nat, from: nat, i: nat)
    requires Run(run) && Alone(run, t, from, i)
    ensures QuietInv(run[from], run[i], t)
    decreases i
  {
    hide QuietInv, Inv, Next, Enabled, Apply;
    if i == from + 1 {
      assert Next(run[from], run[from + 1]);
      QuietBegin(run[from], run[i], t);
    } else {
      QuietRun(run, t, from, i - 1);
      RunInv(run, i - 1);
      assert run[i - 1 + 1] == Apply(run[i - 1], Go(t));
      QuietStep(run[from], run[i - 1], t, run[i]);
    }
  }

  /** A Count during which nothing else steps answers how many positions, from the released one on, are finished with
      nothing unfinished before them. */
  lemma QuietCount(run: seq<State>, t: nat, from: nat, i: nat)
    requires Run(run) && Alone(run, t, from, i) && t in run[i].calls && run[i].calls[t].Returned?
    ensures run[i].calls[t].result == D.Usable(run[from].lane) - run[from].cursor
  {
    hide Inv;
    QuietRun(run, t, from, i);
  }

  // ---------------------------------------------------------------------------------------
  // A Count that runs alone returns

  /** How far a Count is from its answer. */
  function Stage(pc: PC): nat {
    match pc
    case LoadWord => 6
    case LoadHead(_, _) => 5
    case LoadRetained(_, _, _, _) => 4
    case Scan(_, _, _, _, _, _) => 3
    case Validate(_, _, _) => 2
    case Publish(_, _, _) => 1
    case Returned(_) => 0
  }

  function Unscanned(pc: PC): nat {
    if pc.Scan? && pc.end - pc.cursor < pc.limit then pc.limit - (pc.end - pc.cursor) else 0
  }

  /** `k` steps of Count `t` in a row. */
  ghost function Steps(s: State, t: nat, k: nat): State
    decreases k
  {
    if k == 0 || !Enabled(s, Go(t)) then s else Steps(Apply(s, Go(t)), t, k - 1)
  }

  lemma ScanLowers(s: State, pc: PC)
    requires Inv(s) && pc.Scan? && CallOk(s, pc)
    ensures
      var pc' := Turn(s, pc);
      pc'.Validate? || (pc'.Scan? && Unscanned(pc') < Unscanned(pc))
  {
    hide LaneInv, Proven, Slot;
  }

  lemma StageLowers(s: State, pc: PC)
    requires Inv(s) && CallOk(s, pc) && !pc.Returned?
    ensures
      var pc' := Turn(s, pc);
      Stage(pc') < Stage(pc) || (pc.Scan? && pc'.Scan? && Unscanned(pc') < Unscanned(pc))
  {
    hide LaneInv, Proven, Slot, W, Sub32;
    if pc.Scan? {
      ScanLowers(s, pc);
      hide Scanning;
    }
  }

  /** A Count that runs alone returns, wherever it stands, if it has not stalled for a 32-bit cycle before its head
      load. */
  lemma {:induction false} QuietReturns(s: State, t: nat) returns (k: nat)
    requires Inv(s) && t in s.calls && (s.calls[t].LoadHead? ==> s.lane.head < s.calls[t].released + CYCLE)
    ensures t in Steps(s, t, k).calls && Steps(s, t, k).calls[t].Returned?
    decreases Stage(s.calls[t]), Unscanned(s.calls[t])
  {
    hide *;
    if s.calls[t].Returned? {
      k := 0;
      assert Steps(s, t, 0) == s by { NoSteps(s, t); }
    } else {
      GoLowers(s, t);
      var rest := QuietReturns(Apply(s, Go(t)), t);
      k := rest + 1;
      MoreSteps(s, t, rest);
    }
  }

  lemma NoSteps(s: State, t: nat)
    ensures Steps(s, t, 0) == s
  {
  }

  lemma MoreSteps(s: State, t: nat, k: nat)
    requires Enabled(s, Go(t))
    ensures Steps(s, t, k + 1) == Steps(Apply(s, Go(t)), t, k)
  {
  }

  lemma GoLowers(s: State, t: nat)
    requires Inv(s) && t in s.calls && !s.calls[t].Returned?
    requires s.calls[t].LoadHead? ==> s.lane.head < s.calls[t].released + CYCLE
    ensures Enabled(s, Go(t)) && Inv(Apply(s, Go(t))) && t in Apply(s, Go(t)).calls
    ensures
      var pc, pc' := s.calls[t], Apply(s, Go(t)).calls[t];
      && (Stage(pc') < Stage(pc) || (Stage(pc') == Stage(pc) && Unscanned(pc') < Unscanned(pc)))
      && (pc'.LoadHead? ==> Apply(s, Go(t)).lane.head < pc'.released + CYCLE)
  {
    LaneShape(s);
    GoShape(s, t);
    hide *;
    StageLowers(s, s.calls[t]);
    GoInv(s, t, Apply(s, Go(t)));
    NextLoad(s, t);
  }

  lemma GoShape(s: State, t: nat)
    requires Inv(s) && Enabled(s, Go(t))
    ensures CallOk(s, s.calls[t])
    ensures
      var s' := Apply(s, Go(t));
      t in s'.calls && s'.calls[t] == Turn(s, s.calls[t]) && s'.lane == s.lane
  {
    hide Turn, CallOk, LaneInv, Proven;
  }

  lemma NextLoad(s: State, t: nat)
    requires Inv(s) && Enabled(s, Go(t))
    ensures Turn(s, s.calls[t]).LoadHead? ==> s.lane.head < Turn(s, s.calls[t]).released + CYCLE
  {
    HeadWithin(s);
    Small(s);
    hide Inv, Slot, W, Sub32;
  }
}
