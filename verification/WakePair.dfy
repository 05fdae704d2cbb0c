/** Both wait sides of one queue at once. Consumers take items and so give room back, producers take room and
    so offer items: every unit an engine call takes on one side it offers on the other. */
module WakePair {
  import opened WakeProtocol
  import opened WakeTheorems
  import opened WakePromises

  /** `items` is the consumer side and `room` the producer side. `released` and `claimed` are what engine calls
      under way have taken and not offered yet: slots of items taken out, and items for room taken. */
  datatype Pair = Pair(capacity: nat, items: Side, room: Side, released: nat, claimed: nat)

  ghost predicate InitPair(p: Pair) {
    && Init(p.items) && Init(p.room) && p.items.visible == 0 && p.room.visible == p.capacity > 0
    && p.released == p.claimed == 0
  }

  /** What a step takes from its side, and what it offers there. */
  function Taken(x: Action): nat {
    if x.Attempt? then x.m else 0
  }

  function Offered(s: Side, x: Action): nat {
    if x.Go? && x.t in s.calls && s.calls[x.t].Put? then x.a else 0
  }

  datatype Move = OnItems(x: Action) | OnRoom(x: Action)

  ghost predicate Allowed(p: Pair, m: Move) {
    && p.items.batch > 0 && p.room.batch > 0
    && match m
       case OnItems(x) => Enabled(p.items, x) && Offered(p.items, x) <= p.claimed
       case OnRoom(x) => Enabled(p.room, x) && Offered(p.room, x) <= p.released
  }

  ghost function Moved(p: Pair, m: Move): Pair
    requires Allowed(p, m)
  {
    match m
    case OnItems(x) =>
      p.(items := Apply(p.items, x), released := p.released + Taken(x), claimed := p.claimed - Offered(p.items, x))
    case OnRoom(x) =>
      p.(room := Apply(p.room, x), claimed := p.claimed + Taken(x), released := p.released - Offered(p.room, x))
  }

  ghost predicate PairRun(run: seq<Pair>) {
    && |run| > 0 && InitPair(run[0])
    && forall i | 0 <= i < |run| - 1 :: exists m :: Allowed(run[i], m) && run[i + 1] == Moved(run[i], m)
  }

  /** Nothing is lost between the two sides. */
  ghost predicate PairInv(p: Pair) {
    && Inv(p.items) && Inv(p.room)
    && p.items.accepted + p.claimed == p.room.acquired
    && p.room.accepted + p.released == p.capacity + p.items.acquired
  }

  lemma StepAmounts(s: Side, x: Action)
    requires s.batch > 0 && Enabled(s, x)
    ensures Apply(s, x).acquired == s.acquired + Taken(x) && Apply(s, x).accepted == s.accepted + Offered(s, x)
  {
    if x.Go? {
      hide GoEnabled, TakerStep, WakeStep;
      var pc := s.calls[x.t];
      if TakerPC(pc) {
        TakerUntouched(s, x.t, pc, x.a);
      } else if WakePC(pc) {
        WakeUntouched(s, x.t, pc, x.a);
      } else {
        SupplyAmounts(s, x.t, pc, x.a);
      }
    }
  }

  lemma SupplyAmounts(s: Side, t: nat, pc: PC, a: nat)
    requires s.batch > 0
    ensures SupplyStep(s, t, pc, a).acquired == s.acquired
    ensures SupplyStep(s, t, pc, a).accepted == s.accepted + if pc.Put? then a else 0
  {
    hide AfterCheck, AfterProbe;
  }

  lemma MoveInv(p: Pair, m: Move)
    requires PairInv(p) && Allowed(p, m)
    ensures PairInv(Moved(p, m))
  {
    hide Inv, Enabled, Apply;
    match m
    case OnItems(x) =>
      StepInv(p.items, x, Apply(p.items, x));
      StepAmounts(p.items, x);
    case OnRoom(x) =>
      StepInv(p.room, x, Apply(p.room, x));
      StepAmounts(p.room, x);
  }

  lemma {:induction false} PairRunInv(run: seq<Pair>, i: nat)
    requires PairRun(run) && i < |run|
    ensures PairInv(run[i]) && run[i].capacity == run[0].capacity
  {
    hide Inv, Init, Enabled, Apply;
    if i == 0 {
      InitInv(run[0].items);
      InitInv(run[0].room);
      InitAmounts(run[0]);
    } else {
      PairRunInv(run, i - 1);
      var m :| Allowed(run[i - 1], m) && run[i - 1 + 1] == Moved(run[i - 1], m);
      MoveInv(run[i - 1], m);
    }
  }

  lemma InitAmounts(p: Pair)
    requires InitPair(p)
    ensures p.items.accepted == p.items.acquired == 0 && p.room.accepted == p.capacity && p.room.acquired == 0
  {
  }

  lemma Accounted(s: Side)
    requires Inv(s)
    ensures s.accepted == s.visible + s.hidden + s.acquired
  {
  }

  /** In every state of every run, what the two sides show, hide and have under way is the capacity. */
  lemma CapacityKept(run: seq<Pair>, i: nat)
    requires PairRun(run) && i < |run|
    ensures
      var p := run[i];
      p.items.visible + p.items.hidden + p.room.visible + p.room.hidden + p.released + p.claimed == run[0].capacity > 0
  {
    hide Inv;
    PairRunInv(run, i);
    Accounted(run[i].items);
    Accounted(run[i].room);
  }

  ghost predicate Quiet(s: Side) {
    forall t :: t in s.calls ==> Asleep(s, t)
  }

  predicate Parked(s: Side, t: nat) {
    t in s.calls && s.calls[t].Park?
  }

  /** With every call asleep or returned and no engine call under way, consumers and producers are never both
      parked. */
  lemma NotBothAsleep(run: seq<Pair>, i: nat, t: nat, u: nat)
    requires PairRun(run) && i < |run| && Quiet(run[i].items) && Quiet(run[i].room)
    requires run[i].released == run[i].claimed == 0
    ensures !(Parked(run[i].items, t) && Parked(run[i].room, u))
  {
    var p := run[i];
    PairRunInv(run, i);
    CapacityKept(run, i);
    if Parked(p.items, t) && Parked(p.room, u) {
      NothingShows(p.items, t);
      NothingShows(p.room, u);
      assert false;
    }
  }

  lemma NothingShows(s: Side, t: nat)
    requires Inv(s) && Quiet(s) && Parked(s, t)
    ensures s.visible == 0 && s.hidden == 0
  {
    VisibleAttended(s, t);
  }
}
