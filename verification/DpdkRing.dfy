/** The dpdk MPMC queue as a step system: reservations on both sides with shared caches, and ordered or
    relaxed publication. Numbers are unbounded; every decision is taken on their 32-bit words. The stated
    limits on use (no observation spans a full cycle, no cache lags a cycle less the capacity) are the
    guards of the steps that rely on them. */
module DpdkRing {
  import opened Words32

  /** One side. Reservation `k` is `[starts[k], starts[k + 1])`; `counted` are the finished ones. `tail` is
      the relaxed tail position and `published` what the other side reads. */
  datatype Side = Side(relaxed: bool, starts: seq<nat>, counted: set<nat>, tail: nat, published: nat)

  function Made(s: Side): nat {
    if |s.starts| == 0 then 0 else |s.starts| - 1
  }

  function Head(s: Side): nat {
    if |s.starts| == 0 then 0 else s.starts[|s.starts| - 1]
  }

  datatype PC =
    // Reserving
    | Start
    | GotTail(t: nat)
    | GotHead(h: nat, c: nat)
    | Refresh(h: nat, c: nat, cached: nat)
    | Keep(h: nat, c: nat, p: nat)
    | Reserve(h: nat, c: nat, p: nat)
    // Publishing
    | Working(k: nat)
    | PubTail(k: nat)
    | PubHead(k: nat, cnt: nat, pos: nat)
    | PubCas(k: nat, cnt: nat, pos: nat, hc: nat, hp: nat)
    // Raising the mirror
    | Raise(to: nat)
    | RaiseTail(to: nat, m: nat)
    | RaiseCas(to: nat, m: nat, t: nat)
    | Finished(moved: nat)

  /** `distance` bounds how far a relaxed head may run ahead of its tail. */
  datatype Call = Call(producer: bool, requested: nat, fixed: bool, exact: bool, distance: nat, pc: PC)

  datatype State = State(cap: nat, prod: Side, cons: Side, prodCache: nat, consCache: nat, calls: map<nat, Call>)

  function Own(s: State, producer: bool): Side {
    if producer then s.prod else s.cons
  }

  function Cache(s: State, producer: bool): nat {
    if producer then s.prodCache else s.consCache
  }

  /** How far a side's head may be past what the other side published. */
  function Lead(cap: nat, producer: bool): nat {
    if producer then cap else 0
  }

  // ---------------------------------------------------------------------------------------
  // One step of one call

  datatype Effect = Effect(own: Side, cache: nat, pc: PC)

  /** Whether the cached position is not enough to decide on. */
  predicate NeedsFresh(cap: nat, call: Call, h: nat, cached: nat)
    requires call.requested <= cap < CYCLE
  {
    || call.exact || call.requested == 0
    || (if call.producer then Sub32(W(h), W(cached)) > cap - call.requested
        else Sub32(Sub32(W(cached), W(h)), call.requested) > cap - call.requested)
  }

  /** What a reservation takes: nothing when the head is stale, the request does not fit, or there is
      nothing to take. */
  function Granted(cap: nat, call: Call, h: nat, p: nat): nat
    requires cap < CYCLE
  {
    var room := Room(Lead(cap, call.producer), W(p), W(h));
    if room > cap || (call.fixed && room < call.requested) then 0
    else if call.requested <= room then call.requested else room
  }

  predicate Stale(cap: nat, call: Call, h: nat, p: nat)
    requires cap < CYCLE
  {
    Room(Lead(cap, call.producer), W(p), W(h)) > cap
  }

  /** The head compare-and-swap succeeds on equal words. */
  predicate SameHead(own: Side, h: nat, c: nat) {
    W(Head(own)) == W(h) && (own.relaxed ==> W(Made(own)) == W(c))
  }

  function ReserveTurn(cap: nat, own: Side, cache: nat, call: Call, h: nat, c: nat, p: nat): Effect
    requires cap < CYCLE
  {
    if Stale(cap, call, h, p) && call.requested != 0 then Effect(own, cache, Start)
    else if Granted(cap, call, h, p) == 0 then Effect(own, cache, Finished(0))
    else if !SameHead(own, h, c) then Effect(own, cache, Start)
    else Effect(own.(starts := own.starts + [Head(own) + Granted(cap, call, h, p)]), cache, Working(Made(own)))
  }

  /** The ordered store, and the relaxed tail update. */
  function PublishTurn(own: Side, cache: nat, k: nat, end: nat): Effect {
    Effect(own.(counted := own.counted + {k}, tail := end, published := end), cache, Finished(1))
  }

  function TailTurn(own: Side, cache: nat, k: nat, cnt: nat, pos: nat, hc: nat, hp: nat): Effect {
    var next := NextTail(Pack(W(pos), W(cnt)), Pack(W(hp), W(hc)));
    if Pack(W(own.tail), W(|own.counted|)) != Pack(W(pos), W(cnt)) then Effect(own, cache, PubTail(k))
    else
      var moved := if W(cnt + 1) == W(hc) then hp else pos;
      Effect(own.(counted := own.counted + {k}, tail := moved), cache,
             if UnpackPos(next) != W(pos) then Raise(moved) else Finished(1))
  }

  function Turn(cap: nat, own: Side, opposite: nat, cache: nat, call: Call): Effect
    requires call.requested <= cap < CYCLE
  {
    match call.pc
    case Start => if own.relaxed then Effect(own, cache, GotTail(own.tail)) else Effect(own, cache, GotHead(Head(own), Made(own)))
    case GotTail(t) =>
      Effect(own, cache, if Sub32(W(Head(own)), W(t)) <= call.distance then GotHead(Head(own), Made(own)) else Start)
    case GotHead(h, c) =>
      Effect(own, cache, if NeedsFresh(cap, call, h, cache) then Refresh(h, c, cache) else Reserve(h, c, cache))
    case Refresh(h, c, cached) =>
      // The cache is stored only if the position loaded differs from the one it held.
      Effect(own, cache, if W(opposite) != W(cached) then Keep(h, c, opposite) else Reserve(h, c, opposite))
    case Keep(h, c, p) => Effect(own, p, Reserve(h, c, p))
    case Reserve(h, c, p) => ReserveTurn(cap, own, cache, call, h, c, p)
    case Working(k) =>
      if own.relaxed then Effect(own, cache, PubTail(k))
      else if k + 1 < |own.starts| && W(own.published) == W(own.starts[k]) then PublishTurn(own, cache, k, own.starts[k + 1])
      else Effect(own, cache, Working(k))
    case PubTail(k) => Effect(own, cache, PubHead(k, |own.counted|, own.tail))
    case PubHead(k, cnt, pos) => Effect(own, cache, PubCas(k, cnt, pos, Made(own), Head(own)))
    case PubCas(k, cnt, pos, hc, hp) => TailTurn(own, cache, k, cnt, pos, hc, hp)
    case Raise(to) => Effect(own, cache, RaiseTail(to, own.published))
    case RaiseTail(to, m) =>
      Effect(own, cache, if Ahead(Sub32(W(own.tail), W(m))) then RaiseCas(to, m, own.tail) else Finished(1))
    case RaiseCas(to, m, t) =>
      if W(own.published) == W(m) then Effect(own.(published := t), cache, Finished(1)) else Effect(own, cache, Raise(to))
    case Finished(_) => Effect(own, cache, call.pc)
  }

  /** The stated limits on use, where a step relies on them. */
  predicate Within(cap: nat, own: Side, opposite: nat, cache: nat, call: Call) {
    match call.pc
    case GotTail(t) => Head(own) < t + CYCLE
    case GotHead(_, _) => opposite < cache + CYCLE - cap
    case Reserve(h, c, _) => Head(own) < h + CYCLE && Made(own) < c + CYCLE
    case PubCas(_, cnt, _, _, _) => |own.counted| < cnt + CYCLE
    case RaiseCas(_, m, _) => own.published < m + CYCLE
    case _ => true
  }

  // ---------------------------------------------------------------------------------------
  // Runs

  ghost predicate Init(s: State) {
    && 0 < s.cap <= 0x4000_0000
    && s.prod == Side(s.prod.relaxed, [0], {}, 0, 0) && s.cons == Side(s.cons.relaxed, [0], {}, 0, 0)
    && s.prodCache == 0 && s.consCache == 0 && s.calls == map[]
  }

  datatype Action = Begin(t: nat, call: Call) | Go(t: nat) | End(t: nat)

  ghost predicate Enabled(s: State, x: Action) {
    match x
    case Begin(t, call) => t !in s.calls && call.pc == Start && call.requested <= s.cap
    case Go(t) =>
      && t in s.calls && s.calls[t].requested <= s.cap < CYCLE
      && var c := s.calls[t]; Within(s.cap, Own(s, c.producer), Own(s, !c.producer).published, Cache(s, c.producer), c)
    case End(t) => t in s.calls && s.calls[t].pc.Finished?
  }

  function Placed(s: State, t: nat, call: Call, e: Effect): State {
    var calls := s.calls[t := call.(pc := e.pc)];
    if call.producer then s.(prod := e.own, prodCache := e.cache, calls := calls)
    else s.(cons := e.own, consCache := e.cache, calls := calls)
  }

  ghost function Apply(s: State, x: Action): State
    requires Enabled(s, x)
  {
    match x
    case Begin(t, call) => s.(calls := s.calls[t := call])
    case Go(t) =>
      var c := s.calls[t];
      Placed(s, t, c, Turn(s.cap, Own(s, c.producer), Own(s, !c.producer).published, Cache(s, c.producer), c))
    case End(t) => s.(calls := s.calls - {t})
  }

  ghost predicate Next(s: State, s': State) {
    exists x :: Enabled(s, x) && s' == Apply(s, x)
  }

  ghost predicate Run(run: seq<State>) {
    && |run| > 0 && Init(run[0])
    && forall i | 0 <= i < |run| - 1 :: Next(run[i], run[i + 1])
  }
}
