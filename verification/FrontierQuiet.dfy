/** What a call of the multi-producer multi-consumer frontier queue answers: never more than there is, and with no
    other call stepping exactly what a bounded queue by itself answers. */
module FrontierQuiet {
  import opened Lanes
  import D = Discovery
  import opened FrontierMPMC
  import opened FrontierInvariant
  import opened FrontierSafety
  import opened FrontierSteps
  import opened FrontierTheorems
  import opened FrontierBulk

  /** What a call has moved and reports lies within what the opposite frontier admits, whatever other calls do.
      With the head as the call left it, all it reports is there when it returns. */
  lemma ReportIsThere<T(!new)>(run: seq<State<T>>, i: nat, t: nat)
    requires Run(run) && i < |run| && t in run[i].calls && run[i].calls[t].pc.Return?
    ensures
      var c := run[i].calls[t];
      var own, opposite := run[i].Own(c.request.side), run[i].Opposite(c.request.side);
      && c.pc.start + c.pc.count + c.left <= opposite.frontier + Lead(c.request.side, run[i].n)
      && (own.head == c.pc.start + c.pc.count ==> c.left <= Available(run[i], c.request.side))
  {
    hide Inv, Available;
    RunInv(run, i);
    CallFacts(run[i], t);
    InvShaped(run[i]);
    AvailableBounded(run[i], run[i].calls[t].request.side);
    FrontierUsable(run[i].Opposite(run[i].calls[t].request.side), run[i]);
  }

  lemma FrontierUsable<T>(l: Lane, s: State<T>)
    requires LanesInv(s) && (l == s.producers || l == s.consumers)
    ensures l.frontier <= D.Usable(l)
  {
    assert forall p: nat | p < l.frontier :: !D.Blocked(l, p);
  }

  /** Call `t` begins at `from`, and up to `i` no other call steps. */
  ghost predicate Alone<T>(run: seq<State<T>>, t: nat, from: nat, i: nat) {
    && from < i < |run| && t !in run[from].calls && t in run[from + 1].calls
    && forall k | from < k < i :: Shaped(run[k]) && t in run[k].calls && run[k + 1] == Turn(run[k], t)
  }

  /** The answers of a bounded queue that has `there` to take: a Count, a peek and a bulk transfer that does not fit
      move nothing and report all of it, any other transfer moves as much as there is of what it asks for. The count
      left by a transfer that got all it asked for may be low unless exact counts were asked for. */
  predicate Answers(r: Request, there: nat, count: nat, left: nat) {
    if r.observe || r.count == 0 || (r.fixed && there < r.count) then count == 0 && left == there
    else
      && count == D.Min(r.count, there) && count + left <= there
      && (r.exact || count < r.count ==> count + left == there)
  }

  /** A call during which no other call steps answers as a bounded queue by itself would, and takes from the front. */
  lemma QuietAnswer<T(!new)>(run: seq<State<T>>, t: nat, from: nat, i: nat)
    requires Run(run) && Alone(run, t, from, i) && t in run[i].calls && run[i].calls[t].pc.Return?
    ensures
      var c := run[i].calls[t];
      && Answers(c.request, Available(run[from], c.request.side), c.pc.count, c.left)
      && c.pc.start == run[from].Own(c.request.side).head
  {
    hide Inv, Available, Answers, QuietInv, Next, Init;
    QuietRun(run, t, from, i);
    RunInv(run, i);
    RunInv(run, from);
    QuietReturn(run[from], run[i], t);
  }

  // ---------------------------------------------------------------------------------------
  // Proof

  /** The lane has reserved and finished the same, wherever its frontier is. */
  ghost predicate SameSupply(l: Lane, l': Lane) {
    l'.head == l.head && l'.reserved == l.reserved && l'.finished == l.finished
  }

  lemma SameUsable(l: Lane, l': Lane)
    requires SameSupply(l, l')
    ensures D.Usable(l') == D.Usable(l)
  {
    assert forall p: nat :: D.Blocked(l', p) <==> D.Blocked(l, p);
    assert D.Blocked(l', D.Usable(l)) && D.Blocked(l, D.Usable(l'));
  }

  /** What a call that runs alone since `s0` has met. */
  ghost predicate QuietInv<T>(s0: State<T>, s: State<T>, t: nat) {
    && t in s.calls && s.n == s0.n
    && var c := s.calls[t];
       var side := c.request.side;
       var head := s0.Own(side).head;
       && SameSupply(s0.Opposite(side), s.Opposite(side)) && c.fewest == Available(s0, side)
       && (!InFlight(c.pc) && !(c.pc.Return? && c.pc.count > 0) ==> s.Own(side).head == head)
       && match c.pc
          case LoadHead => true
          case LoadOpposite(h) => h == head
          case Advance(h, _) => h == head
          case Reserve(h, _) => h == head
          case Copy(start, _, _) => start == head
          case Clear(start, _, _) => start == head
          case Publish(start, _) => start == head
          case Return(start, _) => start == head
  }

  lemma SameAvailable<T>(s0: State<T>, s: State<T>, side: Side)
    requires s.n == s0.n && SameSupply(s0.Opposite(side), s.Opposite(side)) && s.Own(side).head == s0.Own(side).head
    ensures Available(s, side) == Available(s0, side)
  {
    SameUsable(s0.Opposite(side), s.Opposite(side));
  }

  lemma QuietReturn<T>(s0: State<T>, s: State<T>, t: nat)
    requires Inv(s0) && Inv(s) && QuietInv(s0, s, t) && s.calls[t].pc.Return?
    ensures
      var c := s.calls[t];
      && Answers(c.request, Available(s0, c.request.side), c.pc.count, c.left)
      && c.pc.start == s0.Own(c.request.side).head
  {
    hide Inv, Available, D.Usable;
    InvShaped(s0);
    InvShaped(s);
    var c := s.calls[t];
    AvailableBounded(s0, c.request.side);
    FrontierUsable(s.Opposite(c.request.side), s);
    SameUsable(s0.Opposite(c.request.side), s.Opposite(c.request.side));
    ReturnFacts(s, t);
    hide LanesInv, SameSupply;
  }

  lemma ReturnFacts<T>(s: State<T>, t: nat)
    requires Inv(s) && t in s.calls && s.calls[t].pc.Return?
    ensures ReportInv(s, s.calls[t], s.calls[t].pc.start, s.calls[t].pc.count)
  {
    hide Inv, ReportInv;
    CallFacts(s, t);
  }

  lemma LoadQuiet<T>(s0: State<T>, s: State<T>, t: nat, s': State<T>)
    requires Shaped(s) && QuietInv(s0, s, t) && s' == Turn(s, t)
    requires s.calls[t].pc.LoadHead? || s.calls[t].pc.LoadOpposite?
    ensures QuietInv(s0, s', t)
  {
    SameAvailable(s0, s, s.calls[t].request.side);
    hide Available, D.Sub64, D.Usable;
  }

  lemma AdvanceQuiet<T>(s0: State<T>, s: State<T>, t: nat, s': State<T>, head: nat, scan: D.Scan)
    requires Shaped(s) && QuietInv(s0, s, t) && s.calls[t].pc == Advance(head, scan)
    requires s' == AdvanceTurn(s, t, s.calls[t], head, scan)
    ensures QuietInv(s0, s', t)
  {
    SameAvailable(s0, s, s.calls[t].request.side);
    hide Available, D.Sub64, D.Usable, D.Step;
  }

  lemma ReserveQuiet<T>(s0: State<T>, s: State<T>, t: nat, s': State<T>, head: nat, available: nat)
    requires Shaped(s) && QuietInv(s0, s, t) && s.calls[t].pc == Reserve(head, available)
    requires s' == ReserveTurn(s, t, s.calls[t], head, available)
    ensures QuietInv(s0, s', t)
  {
    hide Available, D.Usable;
  }

  lemma CopyQuiet<T>(s0: State<T>, s: State<T>, t: nat, s': State<T>, start: nat, count: nat, done: nat)
    requires Shaped(s) && QuietInv(s0, s, t)
    requires || (s.calls[t].pc == Copy(start, count, done) && s' == CopyTurn(s, t, s.calls[t], start, count, done))
             || (s.calls[t].pc == Clear(start, count, done) && s' == ClearTurn(s, t, s.calls[t], start, count, done))
    ensures QuietInv(s0, s', t)
  {
    hide Available, Slot;
  }

  lemma PublishQuiet<T>(s0: State<T>, s: State<T>, t: nat, s': State<T>)
    requires Inv(s) && QuietInv(s0, s, t) && s.calls[t].pc.Publish? && s' == PublishTurn(s, t, s.calls[t])
    ensures QuietInv(s0, s', t)
  {
    hide Inv, Available;
    InvShaped(s);
    CallFacts(s, t);
  }

  lemma QuietStep<T>(s0: State<T>, s: State<T>, t: nat, s': State<T>)
    requires Inv(s) && QuietInv(s0, s, t) && s' == Turn(s, t)
    ensures QuietInv(s0, s', t)
  {
    hide Inv, QuietInv, Available, AdvanceTurn, ReserveTurn, CopyTurn, ClearTurn, PublishTurn, D.Usable, Slot;
    InvShaped(s);
    QuietIn(s0, s, t);
    match s.calls[t].pc {
      case LoadHead => LoadQuiet(s0, s, t, s');
      case LoadOpposite(_) => LoadQuiet(s0, s, t, s');
      case Advance(head, scan) => AdvanceQuiet(s0, s, t, s', head, scan);
      case Reserve(head, available) => ReserveQuiet(s0, s, t, s', head, available);
      case Copy(start, count, done) => CopyQuiet(s0, s, t, s', start, count, done);
      case Clear(start, count, done) => CopyQuiet(s0, s, t, s', start, count, done);
      case Publish(_, _) =>
        PublishTaken(s, t);
        PublishQuiet(s0, s, t, s');
      case Return(_, _) =>
    }
  }

  lemma QuietIn<T>(s0: State<T>, s: State<T>, t: nat)
    requires QuietInv(s0, s, t)
    ensures t in s.calls
  {
  }

  lemma PublishTaken<T>(s: State<T>, t: nat)
    requires Shaped(s) && t in s.calls && s.calls[t].pc.Publish?
    ensures Turn(s, t) == PublishTurn(s, t, s.calls[t])
  {
  }

  lemma QuietBegin<T(!new)>(s0: State<T>, s: State<T>, t: nat)
    requires Next(s0, s) && t !in s0.calls && t in s.calls
    ensures QuietInv(s0, s, t)
  {
    hide Available, Turn;
    var a :| Enabled(s0, a) && s == Apply(s0, a);
    if a.Go? {
      FewestTurn(s0, a.t, s, t);
    }
  }

  lemma {:induction false} QuietRun<T(!new)>(run: seq<State<T>>, t: nat, from: nat, i: nat)
    requires Run(run) && Alone(run, t, from, i)
    ensures QuietInv(run[from], run[i], t)
    decreases i
  {
    hide QuietInv, Inv, Next;
    if i == from + 1 {
      assert Next(run[from], run[from + 1]);
      QuietBegin(run[from], run[i], t);
    } else {
      QuietRun(run, t, from, i - 1);
      RunInv(run, i - 1);
      assert run[i - 1 + 1] == Turn(run[i - 1], t);
      QuietStep(run[from], run[i - 1], t, run[i]);
    }
  }
}
