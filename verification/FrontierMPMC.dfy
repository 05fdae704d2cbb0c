/** The multi-producer multi-consumer frontier queue as a step system.

    Any number of calls run at once. A step is one shared access of one call: an atomic load, a
    compare-and-swap, a record store, or the copy or clearing of a single slot. Go's atomics are
    sequentially consistent, so a run is a sequence of steps. Producers and consumers run the same
    protocol on two lanes: a caller reserves on its own lane and is limited by the frontier of
    the opposite lane, which it may advance. */
module FrontierMPMC {
  import opened Lanes
  import D = Discovery

  datatype Side = Producer | Consumer

  /** A transfer call, or with `observe` a call of Count. A zero-length transfer is a peek. */
  datatype Request = Request(side: Side, count: nat, fixed: bool, exact: bool, observe: bool)

  /** The next shared access of a call. */
  datatype PC =
    | LoadHead
    | LoadOpposite(head: nat)
    | Advance(head: nat, scan: D.Scan)
    | Reserve(head: nat, available: nat)
    | Copy(start: nat, count: nat, done: nat)
    | Clear(start: nat, count: nat, done: nat)
    | Publish(start: nat, count: nat)
    | Return(start: nat, count: nat)

  /** `values` are the items to enqueue, or the items dequeued so far. `left` is the returned free
      or available count. `fewest` is history: the least amount there really was to take at one of
      the call's loads since its last head load. */
  datatype Call<T> = Call(request: Request, pc: PC, values: seq<T>, left: nat, fewest: nat)

  /** `inputs` (the value enqueued at each reserved position) and `outputs` (the value read at each
      position) are history. */
  datatype State<T> = State(
    n: nat,
    clearing: bool,
    zero: T,
    producers: Lane,
    consumers: Lane,
    entries: seq<T>,
    calls: map<nat, Call<T>>,
    inputs: seq<T>,
    outputs: map<nat, T>)
  {
    function Own(side: Side): Lane {
      if side.Producer? then producers else consumers
    }

    function Opposite(side: Side): Lane {
      if side.Producer? then consumers else producers
    }

    function WithOwn(side: Side, l: Lane): State<T> {
      if side.Producer? then this.(producers := l) else this.(consumers := l)
    }

    function WithOpposite(side: Side, l: Lane): State<T> {
      if side.Producer? then this.(consumers := l) else this.(producers := l)
    }

    function With(t: nat, c: Call<T>): State<T> {
      this.(calls := calls[t := c])
    }
  }

  ghost predicate Shaped<T>(s: State<T>) {
    0 < s.n <= 0x4000_0000 && |s.producers.records| == |s.consumers.records| == |s.entries| == s.n
  }

  ghost predicate Init<T>(s: State<T>) {
    && 0 < s.n <= 0x4000_0000
    && s.producers == s.consumers == InitLane(s.n)
    && s.entries == seq(s.n, _ => s.zero)
    && s.calls == map[] && s.inputs == [] && s.outputs == map[]
  }

  // ---------------------------------------------------------------------------------------
  // Admission

  datatype Admission = Stale | Room(count: nat)

  /** What the head a caller loaded and the opposite frontier it loaded later say it may move. */
  function Admits(side: Side, n: nat, head: nat, frontier: nat): Admission {
    match side
    case Producer =>
      if frontier > head then Stale else Room(D.Sub64(n, D.Sub64(head, frontier)))
    case Consumer =>
      if D.Sub64(frontier, head) > n then Stale else Room(D.Sub64(frontier, head))
  }

  /** Positions a side may go past the opposite frontier: producers one lap, consumers none. */
  function Lead(side: Side, n: nat): nat {
    if side.Producer? then n else 0
  }

  /** Settles a call once its room is known. */
  function Decide<T>(c: Call<T>, head: nat, room: nat): Call<T> {
    var r := c.request;
    if (r.fixed && room < r.count) || r.count == 0 || room == 0 then
      c.(pc := Return(head, 0), left := room)
    else
      c.(pc := Reserve(head, room))
  }

  function AfterOpposite<T>(c: Call<T>, n: nat, head: nat, frontier: nat): Call<T> {
    var r := c.request;
    match Admits(r.side, n, head, frontier)
    case Stale => c.(pc := LoadHead)
    case Room(room) =>
      if r.exact || r.count == 0 || room < r.count then c.(pc := Advance(head, D.LoadFrontier))
      else Decide(c, head, room)
  }

  function AfterAdvance<T>(c: Call<T>, n: nat, head: nat, frontier: nat): Call<T> {
    if c.request.observe then
      c.(pc := Return(head, 0), left := D.Min(D.Sub64(frontier, head), n))
    else
      match Admits(c.request.side, n, head, frontier)
      case Stale => c.(pc := LoadHead)
      case Room(room) => Decide(c, head, room)
  }

  // ---------------------------------------------------------------------------------------
  // Steps

  /** What there is to take: completed values that no consumer has reserved, or released slots that no
      producer has reserved, whether or not the shared frontier shows them yet. */
  ghost function Available<T>(s: State<T>, side: Side): nat {
    var room := D.Usable(s.Opposite(side)) + Lead(side, s.n) - s.Own(side).head;
    if room >= 0 then room else 0
  }

  ghost function AdvanceTurn<T>(s: State<T>, t: nat, c: Call<T>, head: nat, scan: D.Scan): State<T>
    requires Shaped(s)
  {
    var opp := s.Opposite(c.request.side);
    if scan.Final? then
      s.With(t, AfterAdvance(c, s.n, head, opp.frontier))
    else
      s.WithOpposite(c.request.side, D.Moved(opp, scan))
       .With(t, c.(pc := Advance(head, D.Step(opp, s.n, scan)), fewest := D.Min(c.fewest, Available(s, c.request.side))))
  }

  function ReserveTurn<T>(s: State<T>, t: nat, c: Call<T>, head: nat, available: nat): State<T> {
    var r, own := c.request, s.Own(c.request.side);
    var count := D.Min(r.count, available);
    if own.head != head then
      s.With(t, c.(pc := LoadHead))
    else
      var s' := s.WithOwn(r.side, own.Reserve(count))
                 .With(t, c.(pc := Copy(head, count, 0), left := available - count));
      if r.side.Producer? && count <= |c.values| then s'.(inputs := s.inputs + c.values[..count]) else s'
  }

  function CopyTurn<T>(s: State<T>, t: nat, c: Call<T>, start: nat, count: nat, done: nat): State<T>
    requires Shaped(s)
  {
    var slot := Slot(start + done, s.n);
    if c.request.side.Producer? then
      if done < count && done < |c.values| then
        s.(entries := s.entries[slot := c.values[done]]).With(t, c.(pc := Copy(start, count, done + 1)))
      else
        s.With(t, c.(pc := Publish(start, count)))
    else if done < count then
      s.(outputs := s.outputs[start + done := s.entries[slot]])
       .With(t, c.(pc := Copy(start, count, done + 1), values := c.values + [s.entries[slot]]))
    else
      s.With(t, c.(pc := if s.clearing then Clear(start, count, 0) else Publish(start, count)))
  }

  function ClearTurn<T>(s: State<T>, t: nat, c: Call<T>, start: nat, count: nat, done: nat): State<T>
    requires Shaped(s)
  {
    if done < count then
      s.(entries := s.entries[Slot(start + done, s.n) := s.zero]).With(t, c.(pc := Clear(start, count, done + 1)))
    else
      s.With(t, c.(pc := Publish(start, count)))
  }

  /** The next step of call `t`. */
  ghost function Turn<T>(s: State<T>, t: nat): (s': State<T>)
    requires Shaped(s) && t in s.calls
    ensures Shaped(s')
  {
    var c := s.calls[t];
    var own := s.Own(c.request.side);
    match c.pc
    case LoadHead =>
      s.With(t, c.(pc := if c.request.observe then Advance(own.head, D.LoadFrontier) else LoadOpposite(own.head),
                   fewest := Available(s, c.request.side)))
    case LoadOpposite(head) => s.With(t, AfterOpposite(c, s.n, head, s.Opposite(c.request.side).frontier))
    case Advance(head, scan) => AdvanceTurn(s, t, c, head, scan)
    case Reserve(head, available) => ReserveTurn(s, t, c, head, available)
    case Copy(start, count, done) => CopyTurn(s, t, c, start, count, done)
    case Clear(start, count, done) => ClearTurn(s, t, c, start, count, done)
    case Publish(start, count) =>
      s.WithOwn(c.request.side, own.Finish(start, start + count)).With(t, c.(pc := Return(start, count)))
    case Return(_, _) => s
  }

  /** A call enters with a legal request, takes its next step, or leaves with its result. */
  datatype Action<T> = Begin(t: nat, request: Request, values: seq<T>) | Go(t: nat) | End(t: nat)

  ghost predicate Enabled<T>(s: State<T>, a: Action<T>) {
    match a
    case Begin(t, r, values) =>
      && t !in s.calls && r.count <= s.n
      && (if r.side.Producer? then |values| == r.count && !r.observe else values == [])
    // No position overflows uint64, which the queue's contract excludes.
    case Go(t) => t in s.calls && !s.calls[t].pc.Return? &&
                  (s.calls[t].pc.Reserve? ==> s.Own(s.calls[t].request.side).head + s.n < D.U64)
    case End(t) => t in s.calls && s.calls[t].pc.Return?
  }

  ghost function Apply<T>(s: State<T>, a: Action<T>): (s': State<T>)
    requires Shaped(s) && Enabled(s, a)
    ensures Shaped(s')
  {
    match a
    case Begin(t, r, values) => s.With(t, Call(r, LoadHead, values, 0, Available(s, r.side)))
    case Go(t) => Turn(s, t)
    case End(t) => s.(calls := s.calls - {t})
  }

  ghost predicate Next<T(!new)>(s: State<T>, s': State<T>) {
    Shaped(s) && exists a :: Enabled(s, a) && s' == Apply(s, a)
  }

  ghost predicate Run<T(!new)>(run: seq<State<T>>) {
    && |run| > 0
    && Init(run[0])
    && (forall i | 0 <= i < |run| - 1 :: Next(run[i], run[i + 1]))
  }
}
