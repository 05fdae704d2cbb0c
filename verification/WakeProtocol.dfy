/** One side of the work queue's wait and wake protocol as a step system.

    Takers wait for supply and suppliers provide it. On the consumer side takers are consumers,
    supply is the items an engine shows, and suppliers are producers. On the producer side takers
    are producers, supply is free room, suppliers are consumers, and the wake cap is 1. Close ends the
    consumer side first and releases the waiting calls of both sides before it sets the producers' closed
    flag, so on the producer side the steps of closing are not these, and the model holds while the queue
    is open.

    A step is one atomic access of one call: a load or successful compare-and-swap of the side
    word, a mutex operation, a list or token operation under the mutex, an engine attempt, or an
    engine peek. A failed compare-and-swap changes nothing and is retried. The engine is a bounded
    queue that may show less than it has accepted while some supplier has not finished; it reports
    nothing only if, at some instant of the call, it showed nothing. */
module WakeProtocol {

  /** The most pollers or parked calls the word can count. */
  const COUNT_MASK := 0x7FFF_FFFF

  /** The cap is at least one and at most the capacity of the engine. */
  const MAX_CAP := 0x4000_0000

  datatype Owner = Nobody | By(call: nat)

  /** What a call goes on to do after it has cleaned up. */
  datatype Then = Took | Cancel | ToDrain | ToCloseCheck | Pushed

  datatype Result = Received | Canceled | Ended | Stopped | Refused | Closed

  datatype PC =
    // Takers: polling, leaving, and parking
    | Free
    | Poll
    | Leave(next: Then)
    | EnlistLock
    | EnlistHeld
    | EnlistLink
    | Extra
    | Park
    | QuitLock(moved: bool, next: Then)
    | QuitHeld(moved: bool, next: Then)
    | QuitCount(moved: bool, next: Then)
    | AwaitToken(next: Then)
    | CloseCheck
    | Drain
    // Cleanup and waking
    | Recheck(next: Then)
    | Clean(pollers: nat, parked: nat, next: Then)
    | Wake(target: nat, next: Then)
    | WakeHeld(target: nat, next: Then)
    | Send(left: nat, next: Then)
    | SendTo(waiter: nat, left: nat, next: Then)
    // Suppliers: the closed check, then attempts until the call stops, each chunk checked after it
    | Offer
    | Put
    | Filling
    | Check
    | Probe(pollers: nat)
    // Close
    | CloseLock
    | CloseHeld
    | CloseDone
    | Returned(result: Result)
    | Panicked

  /** What each call under way has taken, which of them have given up, and what the calls that have ended were told
      they received. */
  datatype Log = Log(taken: map<nat, nat>, quit: set<nat>, received: nat)
  {
    function Of(t: nat): nat {
      if t in taken then taken[t] else 0
    }
  }

  /** The last four are history: supply offered, supply taken, whether a supplier was under way when the side was
      closed, and what became of the calls. */
  datatype Side = Side(
    cap: nat,
    batch: nat,
    pollers: nat,
    parked: nat,
    closed: bool,
    done: bool,
    owner: Owner,
    list: seq<nat>,
    tokens: set<nat>,
    visible: nat,
    hidden: nat,
    calls: map<nat, PC>,
    accepted: nat,
    acquired: nat,
    raced: bool,
    log: Log)
  {
    function At(t: nat, pc: PC): Side {
      this.(calls := calls[t := pc])
    }
  }

  /** A side starts with supply on show or without: producers with all the room, consumers with no items. */
  ghost predicate Init(s: Side) {
    && 0 < s.cap <= MAX_CAP && s.batch > 0
    && s.pollers == 0 && s.parked == 0 && !s.closed && !s.done && s.owner == Nobody
    && s.list == [] && s.tokens == {} && s.hidden == 0
    && s.accepted == s.visible && s.acquired == 0 && !s.raced && s.calls == map[]
    && s.log == Log(map[], {}, 0)
  }

  /** How many takers should be polling when `available` is on show. */
  function Target(cap: nat, batch: nat, available: nat): nat
    requires batch > 0
  {
    if available == 0 then 0
    else
      var batches := 1 + (available - 1) / batch;
      if cap <= batches then cap else batches
  }

  function Resume(next: Then): PC {
    match next
    case Took => Returned(Received)
    case Cancel => Returned(Canceled)
    case ToDrain => Drain
    case ToCloseCheck => CloseCheck
    case Pushed => Put
  }

  /** A supplier that has passed the check for closure and not yet finished. */
  predicate Supplying(pc: PC) {
    || pc.Put? || pc.Filling? || pc.Check? || pc.Probe?
    || ((pc.Leave? || pc.QuitLock? || pc.QuitHeld? || pc.QuitCount? || pc.AwaitToken? || pc.Recheck? || pc.Clean?
         || pc.Wake? || pc.WakeHeld? || pc.Send? || pc.SendTo?) && pc.next.Pushed?)
  }

  // ---------------------------------------------------------------------------------------
  // Steps

  /** What a call does next. `Attempt` moves `m` units, none only if the engine shows none; `Go`
      carries the count an engine peek returns, the units an enqueue takes or makes visible, or
      the end of the list a parking call joins. */
  datatype Action =
    | Begin(t: nat, pc: PC)
    | End(t: nat)
    | Attempt(t: nat, m: nat)
    | SeeClosed(t: nat)
    | GiveUp(t: nat)
    | Register(t: nat)
    | Enlist(t: nat)
    | ReceiveToken(t: nat)
    | ReceiveDone(t: nat)
    | Go(t: nat, a: nat)

  function AfterAttempt(pc: PC, m: nat): PC
    requires pc.Free? || pc.Poll? || pc.Extra? || pc.Drain?
  {
    if m > 0 then
      match pc
      case Poll => Leave(Took)
      case Extra => QuitLock(true, Took)
      case _ => Returned(Received)
    else
      match pc
      case Extra => Park
      case Drain => Returned(Ended)
      case _ => pc
  }

  /** Cleanup decides on the word it got when it dropped its own count, and on a fresh peek. */
  function AfterClean(s: Side, pollers: nat, parked: nat, next: Then, a: nat): PC
    requires s.batch > 0
  {
    if parked == 0 || pollers >= s.cap then Resume(next)
    else if pollers < Target(s.cap, s.batch, a) then Wake(Target(s.cap, s.batch, a), next)
    else Resume(next)
  }

  /** The check of a supplier after its supply became visible. */
  function AfterCheck(s: Side): PC {
    if s.parked == 0 then Put
    else if s.cap == 1 then if s.pollers == 0 then Wake(1, Pushed) else Put
    else if s.pollers >= s.cap then Put
    else Probe(s.pollers)
  }

  function AfterProbe(s: Side, pollers: nat, a: nat): PC
    requires s.batch > 0
  {
    var target := Target(s.cap, s.batch, a);
    var atLeastOne := if target == 0 then 1 else target;
    if pollers < atLeastOne then Wake(atLeastOne, Pushed) else Put
  }

  function Without(list: seq<nat>, t: nat): (rest: seq<nat>)
    ensures |rest| <= |list|
    ensures forall u :: u in rest ==> u in list
  {
    if list == [] then [] else if list[0] == t then list[1..] else [list[0]] + Without(list[1..], t)
  }

  /** The steps of the parking and leaving procedures. */
  function TakerStep(s: Side, t: nat, pc: PC, a: nat): Side {
    match pc
    case Leave(next) =>
      if s.pollers == 0 then s.At(t, Panicked)
      else s.(pollers := s.pollers - 1).At(t, Clean(s.pollers - 1, s.parked, next))
    case EnlistLock => s.(owner := By(t)).At(t, EnlistHeld)
    case EnlistHeld =>
      if s.closed then s.(owner := Nobody).At(t, Leave(ToDrain))
      else if s.pollers == 0 then s.At(t, Panicked)
      else s.(pollers := s.pollers - 1, parked := s.parked + 1).At(t, EnlistLink)
    case EnlistLink =>
      s.(list := if a == 0 then s.list + [t] else [t] + s.list, owner := Nobody).At(t, Extra)
    case QuitLock(moved, next) => s.(owner := By(t)).At(t, QuitHeld(moved, next))
    case QuitHeld(moved, next) =>
      if t in s.list then s.(list := Without(s.list, t)).At(t, QuitCount(moved, next))
      else s.(owner := Nobody).At(t, AwaitToken(next))
    case QuitCount(moved, next) =>
      if s.parked == 0 then s.At(t, Panicked)
      else s.(parked := s.parked - 1, owner := Nobody).At(t, if moved then Recheck(next) else Resume(next))
    case AwaitToken(next) => s.(tokens := s.tokens - {t}).At(t, Leave(next))
    case CloseCheck => s.At(t, if s.closed then Drain else Returned(Canceled))
    case _ => s
  }

  /** The steps of waking: one transfer of counts, then one unlink and one send per waiter. */
  function WakeStep(s: Side, t: nat, pc: PC, a: nat): Side
    requires s.batch > 0
  {
    match pc
    case Recheck(next) => s.At(t, Clean(s.pollers, s.parked, next))
    case Clean(pollers, parked, next) => s.At(t, AfterClean(s, pollers, parked, next, a))
    case Wake(target, next) => s.(owner := By(t)).At(t, WakeHeld(target, next))
    case WakeHeld(target, next) =>
      if s.parked == 0 || s.pollers >= target then s.(owner := Nobody).At(t, Resume(next))
      else if target > COUNT_MASK then s.At(t, Panicked)
      else
        var k := if s.parked <= target - s.pollers then s.parked else target - s.pollers;
        if k > COUNT_MASK - s.pollers then s.At(t, Panicked)
        else s.(pollers := s.pollers + k, parked := s.parked - k).At(t, Send(k, next))
    case Send(left, next) =>
      if left == 0 then s.(owner := Nobody).At(t, Resume(next))
      else if s.list == [] then s.At(t, Panicked)
      else s.(list := s.list[1..]).At(t, SendTo(s.list[0], left - 1, next))
    case SendTo(waiter, left, next) =>
      if waiter in s.tokens then s.At(t, Panicked)
      else s.(tokens := s.tokens + {waiter}).At(t, Send(left, next))
    case _ => s
  }

  /** The steps of suppliers and of Close. */
  ghost function SupplyStep(s: Side, t: nat, pc: PC, a: nat): Side
    requires s.batch > 0
  {
    match pc
    case Offer => s.At(t, if s.closed then Returned(Refused) else Put)
    case Put =>
      if a == 0 then s.At(t, Put)
      else s.(hidden := s.hidden + a, accepted := s.accepted + a).At(t, Filling)
    case Filling => if a <= s.hidden then s.(hidden := s.hidden - a, visible := s.visible + a).At(t, Check) else s
    case Check => s.At(t, AfterCheck(s))
    case Probe(pollers) => s.At(t, AfterProbe(s, pollers, a))
    case CloseLock => s.(owner := By(t)).At(t, CloseHeld)
    case CloseHeld =>
      if s.closed then s.(owner := Nobody).At(t, Returned(Closed))
      else s.(closed := true, raced := exists u :: u in s.calls && Supplying(s.calls[u])).At(t, CloseDone)
    case CloseDone => s.(done := true, owner := Nobody).At(t, Returned(Closed))
    case _ => s
  }

  predicate TakerPC(pc: PC) {
    || pc.Leave? || pc.EnlistLock? || pc.EnlistHeld? || pc.EnlistLink? || pc.QuitLock? || pc.QuitHeld?
    || pc.QuitCount? || pc.AwaitToken? || pc.CloseCheck?
  }

  predicate WakePC(pc: PC) {
    pc.Recheck? || pc.Clean? || pc.Wake? || pc.WakeHeld? || pc.Send? || pc.SendTo?
  }

  predicate SupplyPC(pc: PC) {
    || pc.Offer? || pc.Put? || pc.Filling? || pc.Check? || pc.Probe? || pc.CloseLock? || pc.CloseHeld? || pc.CloseDone?
  }

  ghost predicate GoEnabled(s: Side, t: nat, pc: PC, a: nat) {
    && (TakerPC(pc) || WakePC(pc) || SupplyPC(pc))
    && (pc.EnlistLock? || pc.QuitLock? || pc.Wake? || pc.CloseLock? ==> s.owner == Nobody)
    && (pc.AwaitToken? ==> t in s.tokens)
    // A peek that reports nothing was made while nothing was visible.
    && (pc.Clean? || pc.Probe? ==> a == 0 ==> s.visible == 0)
    // The last supplier under way makes everything visible that was accepted.
    && (pc.Filling? ==>
          && a <= s.hidden
          && ((forall u | u in s.calls && u != t :: !s.calls[u].Filling?) ==> a == s.hidden))
  }

  ghost predicate Enabled(s: Side, x: Action) {
    match x
    case Begin(t, pc) => t !in s.calls && (pc.Free? || pc.Offer? || pc.CloseLock?)
    case End(t) => t in s.calls && s.calls[t].Returned?
    case Attempt(t, m) =>
      && t in s.calls && (s.calls[t].Free? || s.calls[t].Poll? || s.calls[t].Extra? || s.calls[t].Drain?)
      && m <= s.visible && (m == 0 ==> s.visible == 0)
    case SeeClosed(t) => t in s.calls && s.closed && (s.calls[t].Free? || s.calls[t].Poll?)
    case GiveUp(t) => t in s.calls && (s.calls[t].Free? || s.calls[t].Poll? || s.calls[t].Park? || s.calls[t].Put?)
    case Register(t) => t in s.calls && s.calls[t].Free?
    case Enlist(t) => t in s.calls && s.calls[t].Poll?
    case ReceiveToken(t) => t in s.calls && s.calls[t].Park? && t in s.tokens
    case ReceiveDone(t) => t in s.calls && s.calls[t].Park? && s.done
    case Go(t, a) => t in s.calls && GoEnabled(s, t, s.calls[t], a)
  }

  /** A call leaves: what it took counts as received if it was told so. */
  function Departed(log: Log, t: nat, pc: PC): Log {
    Log(log.taken - {t}, log.quit - {t}, log.received + if pc == Returned(Received) then log.Of(t) else 0)
  }

  ghost function Apply(s: Side, x: Action): Side
    requires s.batch > 0 && Enabled(s, x)
  {
    match x
    case Begin(t, pc) => s.(log := s.log.(taken := s.log.taken[t := 0])).At(t, pc)
    case End(t) => s.(calls := s.calls - {t}, log := Departed(s.log, t, s.calls[t]))
    case Attempt(t, m) =>
      s.(visible := s.visible - m, acquired := s.acquired + m, log := s.log.(taken := s.log.taken[t := s.log.Of(t) + m]))
       .At(t, AfterAttempt(s.calls[t], m))
    case SeeClosed(t) => s.At(t, if s.calls[t].Free? then Drain else Leave(ToDrain))
    case GiveUp(t) =>
      s.(log := s.log.(quit := s.log.quit + {t}))
       .At(t, match s.calls[t]
              case Free => Returned(Canceled)
              case Poll => Leave(Cancel)
              case Put => Returned(Stopped)
              case _ => QuitLock(false, ToCloseCheck))
    case Register(t) => if s.closed then s.At(t, Drain) else s.(pollers := s.pollers + 1).At(t, Poll)
    case Enlist(t) => s.At(t, EnlistLock)
    case ReceiveToken(t) => s.(tokens := s.tokens - {t}).At(t, Poll)
    case ReceiveDone(t) => s.At(t, QuitLock(false, ToDrain))
    case Go(t, a) =>
      if TakerPC(s.calls[t]) then TakerStep(s, t, s.calls[t], a)
      else if WakePC(s.calls[t]) then WakeStep(s, t, s.calls[t], a)
      else SupplyStep(s, t, s.calls[t], a)
  }

  ghost predicate Next(s: Side, s': Side) {
    s.batch > 0 && exists x :: Enabled(s, x) && s' == Apply(s, x)
  }

  ghost predicate Run(run: seq<Side>) {
    && |run| > 0
    && Init(run[0])
    && (forall i | 0 <= i < |run| - 1 :: Next(run[i], run[i + 1]))
  }
}
