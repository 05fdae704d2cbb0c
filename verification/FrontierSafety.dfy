/** Values in the multi-producer multi-consumer frontier queue: who owns which slot, and what every
    slot, call and output holds. */
module FrontierSafety {
  import opened Lanes
  import opened FrontierMPMC
  import opened FrontierInvariant

  // ---------------------------------------------------------------------------------------
  // Ownership

  /** Position `p` lies in the interval that call `c` has reserved and not finished. */
  predicate Inside<T>(c: Call<T>, p: nat) {
    InFlight(c.pc) && c.pc.start <= p < c.pc.start + c.pc.count
  }

  /** In-flight calls own unfinished intervals, and no two calls own the same one. */
  ghost predicate OwnedInv<T>(s: State<T>) {
    && (forall t | t in s.calls && InFlight(s.calls[t].pc) ::
          s.calls[t].pc.start !in s.Own(s.calls[t].request.side).finished)
    && (forall t, u | t in s.calls && u in s.calls && t != u && InFlight(s.calls[t].pc) && InFlight(s.calls[u].pc) ::
          s.calls[t].request.side == s.calls[u].request.side ==> s.calls[t].pc.start != s.calls[u].pc.start)
  }

  /** Two calls are never inside the same position, and all their positions lie within one lap,
      so no two calls ever touch the same slot. */
  lemma CallsApart<T>(s: State<T>, t: nat, p: nat, u: nat, q: nat)
    requires LanesInv(s) && OwnedInv(s) && t in s.calls && u in s.calls && t != u
    requires PositionInv(s, s.calls[t]) && PositionInv(s, s.calls[u])
    requires Inside(s.calls[t], p) && Inside(s.calls[u], q)
    ensures p != q && Slot(p, s.n) != Slot(q, s.n)
  {
    InsideWindow(s, t, p);
    InsideWindow(s, u, q);
    var c, d := s.calls[t], s.calls[u];
    if c.request.side == d.request.side {
      var own := s.Own(c.request.side);
      TilesApart(own.reserved, own.head, s.n, c.pc.start, p, d.pc.start, q);
    }
    hide Slot;
    if Slot(p, s.n) == Slot(q, s.n) {
      SlotsApart(s.n, p, q);
    }
  }

  /** The positions of an in-flight call lie in the lap that starts at the released frontier:
      a consumer's below the consumer head, a producer's at or past the completed frontier. */
  lemma InsideWindow<T>(s: State<T>, t: nat, p: nat)
    requires LanesInv(s) && OwnedInv(s) && t in s.calls && PositionInv(s, s.calls[t]) && Inside(s.calls[t], p)
    ensures s.consumers.frontier <= p < s.consumers.frontier + s.n
    ensures if s.calls[t].request.side.Producer? then s.producers.frontier <= p < s.producers.head
            else p < s.consumers.head
  {
    var own := s.Own(s.calls[t].request.side);
    UnfinishedPast(own, own.frontier, s.calls[t].pc.start);
  }

  /** Every unfinished interval is still owned by a call. */
  ghost predicate HeldInv<T>(s: State<T>) {
    forall side, b | b in s.Own(side).reserved && b !in s.Own(side).finished :: Held(s, side, b)
  }

  ghost predicate Held<T>(s: State<T>, side: Side, b: nat) {
    exists t :: t in s.calls && s.calls[t].request.side == side && InFlight(s.calls[t].pc) && s.calls[t].pc.start == b
  }

  // ---------------------------------------------------------------------------------------
  // Values

  /** The slot of position `p` holds the value enqueued at `p`. */
  ghost predicate Holds<T>(s: State<T>, p: nat)
    requires Shaped(s)
  {
    p < |s.inputs| && s.entries[Slot(p, s.n)] == s.inputs[p]
  }

  /** Call `c` relies on the slot of `p`: a producer has written it, a consumer has still to read it. */
  predicate Live<T>(c: Call<T>, p: nat) {
    && Inside(c, p)
    && match c.request.side
       case Producer => c.pc.Copy? ==> p < c.pc.start + c.pc.done
       case Consumer => c.pc.Copy? && c.pc.start + c.pc.done <= p
  }

  ghost predicate LiveInv<T>(s: State<T>)
    requires Shaped(s)
  {
    forall t, p | t in s.calls && Live(s.calls[t], p) :: Holds(s, p)
  }

  /** Finished values that no consumer has reserved yet. */
  ghost predicate Waiting<T>(s: State<T>, p: nat) {
    s.consumers.head <= p && exists b :: b in s.producers.finished && b in s.producers.reserved && b <= p < s.producers.reserved[b]
  }

  ghost predicate WaitingInv<T>(s: State<T>)
    requires Shaped(s)
  {
    forall p | Waiting(s, p) :: Holds(s, p)
  }

  /** What a call carries: a producer the values it enqueues, a consumer the values it dequeued. */
  ghost predicate CarriesInv<T>(s: State<T>, c: Call<T>) {
    var pc := c.pc;
    match c.request.side
    case Producer =>
      && !pc.Clear? && |c.values| == c.request.count
      && (InFlight(pc) || pc.Return? ==>
            && pc.count <= |c.values| && pc.start + pc.count <= |s.inputs|
            && s.inputs[pc.start..pc.start + pc.count] == c.values[..pc.count])
      && (pc.Copy? ==> pc.done <= pc.count)
    case Consumer =>
      match pc
      case Copy(start, count, done) =>
        && done <= count && start + count <= |s.inputs| && c.values == s.inputs[start..start + done]
      case Clear(start, count, done) => start + count <= |s.inputs| && c.values == s.inputs[start..start + count]
      case Publish(start, count) => start + count <= |s.inputs| && c.values == s.inputs[start..start + count]
      case Return(start, count) => start + count <= |s.inputs| && c.values == s.inputs[start..start + count]
      case _ => c.values == []
  }

  /** Position `p` is reserved by consumer `c`, which has not read it yet. */
  predicate Unread<T>(c: Call<T>, p: nat) {
    c.request.side.Consumer? && Live(c, p)
  }

  /** Outputs are the inputs at their positions; a reserved position is read or still to be read. */
  ghost predicate OutputsInv<T>(s: State<T>) {
    && (forall p | p in s.outputs :: p < s.consumers.head && p < |s.inputs| && s.outputs[p] == s.inputs[p])
    && (forall t, p | t in s.calls && Unread(s.calls[t], p) :: p !in s.outputs)
    && (forall p | 0 <= p < s.consumers.head :: p in s.outputs || Reading(s, p))
  }

  ghost predicate Reading<T>(s: State<T>, p: nat) {
    exists t :: t in s.calls && Unread(s.calls[t], p)
  }

  lemma SliceKept<T>(a: seq<T>, b: seq<T>, i: nat, j: nat)
    requires i <= j <= |a| <= |b| && b[..|a|] == a
    ensures b[i..j] == a[i..j]
  {
    forall k | 0 <= k < j - i ensures b[i..j][k] == a[i..j][k] {
      assert b[..|a|][i + k] == a[i + k];
    }
  }

  lemma CarriesStable<T>(s: State<T>, s': State<T>, c: Call<T>)
    requires CarriesInv(s, c) && |s.inputs| <= |s'.inputs| && s'.inputs[..|s.inputs|] == s.inputs
    ensures CarriesInv(s', c)
  {
    forall i, j | 0 <= i <= j <= |s.inputs| ensures s'.inputs[i..j] == s.inputs[i..j] {
      SliceKept(s.inputs, s'.inputs, i, j);
    }
  }

  /** Writing one slot leaves every other position of the lap as it was. */
  lemma WrittenElsewhere<T>(s: State<T>, s': State<T>, q: nat, v: T, p: nat)
    requires Shaped(s) && Holds(s, p) && p != q
    requires s.consumers.frontier <= p < s.consumers.frontier + s.n
    requires s.consumers.frontier <= q < s.consumers.frontier + s.n
    requires s'.n == s.n && s'.inputs == s.inputs && s'.entries == s.entries[Slot(q, s.n) := v] && Shaped(s')
    ensures Holds(s', p)
  {
    if Slot(p, s.n) == Slot(q, s.n) {
      SlotsApart(s.n, p, q);
    }
  }

  /** A position inside an in-flight call is not waiting. */
  lemma InsideNotWaiting<T>(s: State<T>, t: nat, p: nat)
    requires LanesInv(s) && OwnedInv(s) && t in s.calls && PositionInv(s, s.calls[t]) && Inside(s.calls[t], p)
    ensures !Waiting(s, p)
  {
    InsideWindow(s, t, p);
    if s.calls[t].request.side.Producer? {
      forall b | b in s.producers.finished && b in s.producers.reserved ensures !(b <= p < s.producers.reserved[b]) {
        OtherTile(s.producers.reserved, s.producers.head, s.n, s.calls[t].pc.start, p, b);
      }
    }
  }

  lemma OtherTile(reserved: map<nat, nat>, head: nat, n: nat, b: nat, p: nat, c: nat)
    requires Tiled(reserved, head, n) && b in reserved && c in reserved && b != c && b <= p < reserved[b]
    ensures !(c <= p < reserved[c])
  {
  }

  lemma WaitingWindow<T>(s: State<T>, p: nat)
    requires LanesInv(s) && Waiting(s, p)
    ensures s.consumers.frontier <= p < s.consumers.frontier + s.n
  {
  }
}
