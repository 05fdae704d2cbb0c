/** What every step of the dpdk queue keeps. */
module DpdkInvariant {
  import opened Words32
  import opened DpdkRing

  // ---------------------------------------------------------------------------------------
  // One side

  ghost predicate Increasing(starts: seq<nat>) {
    forall i, j | 0 <= i < j < |starts| :: starts[i] < starts[j]
  }

  /** Every reservation that starts below `pos` has finished. */
  ghost predicate Done(s: Side, pos: nat) {
    forall i | 0 <= i < Made(s) && s.starts[i] < pos :: i in s.counted
  }

  ghost predicate SideOk(s: Side) {
    && |s.starts| > 0 && s.starts[0] == 0 && Increasing(s.starts)
    && (forall k | k in s.counted :: k < Made(s))
    && s.published <= s.tail <= Head(s) && Done(s, s.tail)
    && (|s.counted| == Made(s) ==> s.tail == Head(s))
    && (!s.relaxed ==> s.tail == s.published && InOrder(s))
  }

  /** An ordered side has finished exactly the reservations before the published position. */
  ghost predicate InOrder(s: Side) {
    && |s.counted| < |s.starts| && s.published == s.starts[|s.counted|]
    && (forall k | 0 <= k < |s.counted| :: k in s.counted)
  }

  /** Later on the same side: reservations are added, finished ones stay, positions only rise. */
  ghost predicate Grew(s: Side, s': Side) {
    && s'.relaxed == s.relaxed && s.starts <= s'.starts && s.counted <= s'.counted && |s.counted| <= |s'.counted|
    && (|s'.counted| == |s.counted| ==> s'.counted == s.counted && s'.tail == s.tail)
    && s.tail <= s'.tail && s.published <= s'.published
  }

  // ---------------------------------------------------------------------------------------
  // Calls

  /** The reservation a call works on. */
  predicate Works(pc: PC) {
    pc.Working? || pc.PubTail? || pc.PubHead? || pc.PubCas?
  }

  predicate Raises(pc: PC) {
    pc.Raise? || pc.RaiseTail? || pc.RaiseCas?
  }

  ghost predicate HeadSeen(own: Side, h: nat, c: nat) {
    c < |own.starts| && own.starts[c] == h
  }

  /** A position seen on the other side is past; while the head is still the one loaded, it lags by less
      than a cycle less the capacity. */
  ghost predicate Observed(cap: nat, lead: nat, own: Side, opposite: nat, h: nat, p: nat) {
    p <= opposite && (Head(own) == h ==> -(CYCLE - cap) < lead + p - h)
  }

  ghost predicate CallOk(cap: nat, own: Side, opposite: nat, call: Call) {
    var lead := Lead(cap, call.producer);
    match call.pc
    case GotTail(t) => t <= own.tail
    case GotHead(h, c) => HeadSeen(own, h, c)
    case Refresh(h, c, _) => HeadSeen(own, h, c)
    case Keep(h, c, p) => HeadSeen(own, h, c) && Observed(cap, lead, own, opposite, h, p)
    case Reserve(h, c, p) => HeadSeen(own, h, c) && Observed(cap, lead, own, opposite, h, p)
    case Working(k) => k < Made(own) && k !in own.counted
    case PubTail(k) => k < Made(own) && k !in own.counted && own.relaxed
    case PubHead(k, cnt, pos) =>
      k < Made(own) && k !in own.counted && own.relaxed && cnt <= |own.counted| && (|own.counted| == cnt ==> pos == own.tail)
    case PubCas(k, cnt, pos, hc, hp) =>
      && k < hc <= Made(own) && own.starts[hc] == hp && k !in own.counted && own.relaxed && cnt <= |own.counted|
      && (|own.counted| == cnt ==> pos == own.tail && forall i | i in own.counted :: i < hc)
    case Raise(to) => to <= own.tail && own.relaxed
    case RaiseTail(to, m) => to <= own.tail && m <= own.published && to - m <= cap && own.relaxed
    case RaiseCas(to, m, t) => to <= t <= own.tail && m <= own.published && m < t && own.relaxed
    case _ => true
  }

  // ---------------------------------------------------------------------------------------
  // The whole queue

  ghost predicate HeadsOk(s: State) {
    && 0 < s.cap <= 0x4000_0000
    && SideOk(s.prod) && SideOk(s.cons)
    && Head(s.prod) <= s.cons.published + s.cap && Head(s.cons) <= s.prod.published
    && s.prodCache <= s.cons.published && s.consCache <= s.prod.published
  }

  ghost predicate CallsOk(s: State) {
    forall t | t in s.calls ::
      s.calls[t].requested <= s.cap && CallOk(s.cap, Own(s, s.calls[t].producer), Own(s, !s.calls[t].producer).published, s.calls[t])
  }

  /** Every unfinished reservation has one call working on it, and no two calls share one. */
  ghost predicate WorkOk(s: State) {
    && (forall t, u | t in s.calls && u in s.calls && t != u && Works(s.calls[t].pc) && Works(s.calls[u].pc)
          && s.calls[t].producer == s.calls[u].producer :: s.calls[t].pc.k != s.calls[u].pc.k)
    && (forall producer: bool, k: nat :: k < Made(Own(s, producer)) && k !in Own(s, producer).counted ==> Worked(s, producer, k))
  }

  ghost predicate Worked(s: State, producer: bool, k: nat) {
    exists t :: t in s.calls && s.calls[t].producer == producer && Works(s.calls[t].pc) && s.calls[t].pc.k == k
  }

  /** A mirror behind its tail has a raiser under way that moved the tail to where it is. */
  ghost predicate MirrorOk(s: State) {
    forall producer: bool :: Own(s, producer).published < Own(s, producer).tail ==> Owed(s, producer, Own(s, producer).tail)
  }

  ghost predicate Owed(s: State, producer: bool, to: nat) {
    exists t :: t in s.calls && s.calls[t].producer == producer && Raises(s.calls[t].pc) && s.calls[t].pc.to == to
  }

  ghost predicate Inv(s: State) {
    HeadsOk(s) && CallsOk(s) && WorkOk(s) && MirrorOk(s)
  }

  // ---------------------------------------------------------------------------------------
  // Helpers

  ghost function Below(n: nat): (all: set<nat>)
    ensures |all| == n && forall i :: i in all <==> 0 <= i < n
  {
    if n == 0 then {} else Below(n - 1) + {n - 1}
  }

  /** As many different numbers below `n` as there are make all of them. */
  lemma Full(a: set<nat>, n: nat)
    requires |a| == n && forall i | i in a :: i < n
    ensures a == Below(n)
  {
    var all := Below(n);
    assert a <= all;
    assert |all - a| == |all| - |a|;
  }

  /** Neither head nor tail is ever more than the capacity past what the side has published. */
  lemma MirrorNear(s: State, producer: bool)
    requires HeadsOk(s)
    ensures Own(s, producer).tail - Own(s, producer).published <= s.cap
    ensures Head(Own(s, producer)) - Own(s, producer).published <= s.cap
  {
  }

  lemma GrewReflexive(s: Side)
    ensures Grew(s, s)
  {
  }

  lemma HeadStill(own: Side, own': Side, h: nat, c: nat)
    requires SideOk(own) && SideOk(own') && Grew(own, own') && HeadSeen(own, h, c) && Head(own') == h
    ensures Head(own) == h
  {
    assert own'.starts[c] == h;
  }

  /** A call stays as it should be while its side and the other side move on without touching its
      reservation. */
  lemma CallStable(cap: nat, own: Side, opposite: nat, own': Side, opposite': nat, call: Call)
    requires SideOk(own) && SideOk(own') && Grew(own, own') && opposite <= opposite'
    requires CallOk(cap, own, opposite, call)
    requires Works(call.pc) ==> call.pc.k !in own'.counted
    ensures CallOk(cap, own', opposite', call)
  {
    if call.pc.Keep? || call.pc.Reserve? {
      if Head(own') == call.pc.h {
        HeadStill(own, own', call.pc.h, call.pc.c);
      }
    }
  }
}
