/** What every step of the wait side keeps about its counts, its list and its tokens. */
module WakeInvariant {
  import opened WakeProtocol

  datatype Addressee = NoOne | Waiter(call: nat)

  /** What the counts, the list and the tokens depend on in a call: whether it holds the mutex, is
      a registered poller, has joined the list and not left it, must have been selected, has the
      waiter it is about to send to, the waiters it has still to unlink, and whether its own count
      of parked calls is one ahead of the list. */
  datatype View = View(
    lock: bool, active: bool, waits: bool, chosen: bool, to: Addressee, left: nat, ahead: nat)

  const IDLE := View(false, false, false, false, NoOne, 0, 0)

  function ViewOf(pc: PC): View {
    match pc
    case Poll => IDLE.(active := true)
    case Leave(_) => IDLE.(active := true)
    case EnlistLock => IDLE.(active := true)
    case EnlistHeld => IDLE.(active := true, lock := true)
    case EnlistLink => IDLE.(lock := true, ahead := 1)
    case Extra => IDLE.(waits := true)
    case Park => IDLE.(waits := true)
    case QuitLock(_, _) => IDLE.(waits := true)
    case QuitHeld(_, _) => IDLE.(waits := true, lock := true)
    case QuitCount(_, _) => IDLE.(lock := true, ahead := 1)
    case AwaitToken(_) => IDLE.(waits := true, chosen := true)
    case WakeHeld(_, _) => IDLE.(lock := true)
    case Send(left, _) => IDLE.(lock := true, left := left)
    case SendTo(u, left, _) => IDLE.(lock := true, left := left, to := Waiter(u))
    case CloseHeld => IDLE.(lock := true)
    case CloseDone => IDLE.(lock := true)
    case _ => IDLE
  }

  function V(s: Side, t: nat): View {
    if t in s.calls then ViewOf(s.calls[t]) else IDLE
  }

  /** Registered as a poller: polling, or selected by a waker and not yet out of its wait. */
  predicate Registered(s: Side, t: nat) {
    V(s, t).active || (V(s, t).waits && t !in s.list)
  }

  ghost function Pollers(s: Side): set<nat> {
    set t | t in s.calls && Registered(s, t)
  }

  function Holder(s: Side): View {
    if s.owner.By? then V(s, s.owner.call) else IDLE
  }

  ghost predicate LockInv(s: Side) {
    forall t :: V(s, t).lock <==> s.owner == By(t)
  }

  ghost predicate NoDup(list: seq<nat>) {
    forall i, j | 0 <= i < j < |list| :: list[i] != list[j]
  }

  ghost predicate ListInv(s: Side) {
    && NoDup(s.list)
    && (forall t :: t in s.list ==> V(s, t).waits && !V(s, t).chosen)
  }

  /** A call out of the list is owed exactly one token: it is in the channel or about to be sent. */
  ghost predicate TokenInv(s: Side) {
    && (forall t :: t in s.tokens ==> V(s, t).waits && t !in s.list && Holder(s).to != Waiter(t))
    && (Holder(s).to.Waiter? ==> V(s, Holder(s).to.call).waits && Holder(s).to.call !in s.list)
    && (forall t :: V(s, t).waits ==> t in s.list || t in s.tokens || Holder(s).to == Waiter(t))
  }

  /** The counts of the word: parked waiters still to be unlinked are counted as pollers already. */
  ghost predicate CountInv(s: Side) {
    && s.pollers == |Pollers(s)| + Holder(s).left
    && s.parked + Holder(s).left == |s.list| + Holder(s).ahead
  }

  ghost predicate SideInv(s: Side) {
    && 0 < s.cap <= MAX_CAP && s.batch > 0
    && LockInv(s) && ListInv(s) && TokenInv(s) && CountInv(s)
  }

  // ---------------------------------------------------------------------------------------
  // Helpers

  /** Only the view of `t` may change. */
  ghost predicate Others(s: Side, s': Side, t: nat) {
    && s'.cap == s.cap && s'.batch == s.batch
    && (forall u | u != t :: V(s', u) == V(s, u))
  }

  lemma SamePollers(s: Side, s': Side)
    requires forall u :: Registered(s', u) <==> Registered(s, u)
    ensures Pollers(s') == Pollers(s)
  {
    forall u ensures u in Pollers(s') <==> u in Pollers(s) {
      assert Registered(s', u) <==> Registered(s, u);
    }
  }

  lemma MorePollers(s: Side, s': Side, t: nat)
    requires Registered(s', t) && !Registered(s, t)
    requires forall u | u != t :: Registered(s', u) <==> Registered(s, u)
    ensures |Pollers(s')| == |Pollers(s)| + 1
  {
    forall u ensures u in Pollers(s') <==> u in Pollers(s) + {t} {
      assert u != t ==> (Registered(s', u) <==> Registered(s, u));
    }
    assert Pollers(s') == Pollers(s) + {t};
  }

  lemma PollerCounted(s: Side, t: nat)
    requires SideInv(s) && Registered(s, t)
    ensures s.pollers > 0
  {
    assert t in Pollers(s);
  }

  lemma WaitingIsNotActive(s: Side, t: nat)
    requires V(s, t).waits
    ensures !V(s, t).active
  {
  }

  lemma WithoutOne(list: seq<nat>, t: nat)
    requires NoDup(list) && t in list
    ensures NoDup(Without(list, t)) && |Without(list, t)| == |list| - 1
    ensures forall u :: u in Without(list, t) <==> u in list && u != t
  {
    var rest := list[1..];
    assert forall u :: u in list <==> u == list[0] || u in rest;
    assert list[0] !in rest;
    if list[0] != t {
      WithoutOne(rest, t);
      assert list[0] !in Without(rest, t);
    }
  }

  // ---------------------------------------------------------------------------------------
  // What a step does to the views, and why the invariant survives

  lemma InitSide(s: Side)
    requires Init(s)
    ensures SideInv(s)
  {
    assert Pollers(s) == {};
  }

  /** A step that changes nothing the invariant looks at. */
  lemma LocalKeeps(s: Side, s': Side, t: nat)
    requires SideInv(s) && Others(s, s', t) && V(s', t) == V(s, t)
    requires s'.pollers == s.pollers && s'.parked == s.parked && s'.owner == s.owner
    requires s'.list == s.list && s'.tokens == s.tokens
    ensures SideInv(s')
  {
    hide V;
    SamePollers(s, s');
  }

  lemma RegisterKeeps(s: Side, s': Side, t: nat)
    requires SideInv(s) && Others(s, s', t) && V(s, t) == IDLE && V(s', t) == IDLE.(active := true)
    requires s'.pollers == s.pollers + 1 && s'.parked == s.parked && s'.owner == s.owner
    requires s'.list == s.list && s'.tokens == s.tokens
    ensures SideInv(s')
  {
    hide V;
    MorePollers(s, s', t);
  }

  lemma LeaveKeeps(s: Side, s': Side, t: nat)
    requires SideInv(s) && Others(s, s', t) && V(s', t) == IDLE && V(s, t) == IDLE.(active := true)
    requires s'.pollers == s.pollers - 1 && s'.parked == s.parked && s'.owner == s.owner
    requires s'.list == s.list && s'.tokens == s.tokens
    ensures SideInv(s')
  {
    hide V;
    MorePollers(s', s, t);
  }

  lemma LockKeeps(s: Side, s': Side, t: nat)
    requires SideInv(s) && Others(s, s', t)
    requires s.owner == Nobody && s'.owner == By(t)
    requires V(s', t) == V(s, t).(lock := true)
    requires V(s, t).to == NoOne && V(s, t).left == 0 && V(s, t).ahead == 0
    requires s'.pollers == s.pollers && s'.parked == s.parked
    requires s'.list == s.list && s'.tokens == s.tokens
    ensures SideInv(s')
  {
    hide V;
    SamePollers(s, s');
  }

  lemma UnlockKeeps(s: Side, s': Side, t: nat, chosen: bool)
    requires SideInv(s) && Others(s, s', t)
    requires s.owner == By(t) && s'.owner == Nobody
    requires V(s', t) == V(s, t).(lock := false, chosen := chosen) && (chosen ==> t !in s.list)
    requires V(s, t).to == NoOne && V(s, t).left == 0 && V(s, t).ahead == 0
    requires s'.pollers == s.pollers && s'.parked == s.parked
    requires s'.list == s.list && s'.tokens == s.tokens
    ensures SideInv(s')
  {
    hide V;
    SamePollers(s, s');
  }

  lemma ParkKeeps(s: Side, s': Side, t: nat)
    requires SideInv(s) && Others(s, s', t) && s.owner == By(t)
    requires V(s, t) == IDLE.(active := true, lock := true) && V(s', t) == IDLE.(lock := true, ahead := 1)
    requires s'.pollers == s.pollers - 1 && s'.parked == s.parked + 1 && s'.owner == s.owner
    requires s'.list == s.list && s'.tokens == s.tokens
    ensures SideInv(s')
  {
    hide V;
    MorePollers(s', s, t);
  }

  lemma LinkKeeps(s: Side, s': Side, t: nat)
    requires SideInv(s) && Others(s, s', t) && s.owner == By(t) && s'.owner == Nobody
    requires V(s, t) == IDLE.(lock := true, ahead := 1) && V(s', t) == IDLE.(waits := true)
    requires s'.pollers == s.pollers && s'.parked == s.parked
    requires s'.list == s.list + [t] || s'.list == [t] + s.list
    requires s'.tokens == s.tokens
    ensures SideInv(s')
  {
    hide V;
    forall u ensures u in s'.list <==> u in s.list || u == t {
    }
    SamePollers(s, s');
  }

  lemma UnlinkKeeps(s: Side, s': Side, t: nat)
    requires SideInv(s) && Others(s, s', t) && s.owner == By(t)
    requires V(s, t) == IDLE.(lock := true, waits := true) && V(s', t) == IDLE.(lock := true, ahead := 1)
    requires s'.pollers == s.pollers && s'.parked == s.parked && s'.owner == s.owner
    requires t in s.list && s'.list == Without(s.list, t)
    requires s'.tokens == s.tokens
    ensures SideInv(s')
  {
    hide V, Without;
    WithoutOne(s.list, t);
    SamePollers(s, s');
  }

  lemma UncountKeeps(s: Side, s': Side, t: nat)
    requires SideInv(s) && Others(s, s', t) && s.owner == By(t) && s'.owner == Nobody
    requires V(s, t) == IDLE.(lock := true, ahead := 1) && V(s', t) == IDLE
    requires s'.pollers == s.pollers && s'.parked == s.parked - 1
    requires s'.list == s.list && s'.tokens == s.tokens
    ensures SideInv(s')
  {
    hide V;
    SamePollers(s, s');
  }

  lemma TransferKeeps(s: Side, s': Side, t: nat, k: nat)
    requires SideInv(s) && Others(s, s', t) && s.owner == By(t)
    requires V(s, t) == IDLE.(lock := true) && V(s', t) == IDLE.(lock := true, left := k)
    requires s'.pollers == s.pollers + k && s'.parked == s.parked - k && s'.owner == s.owner
    requires s'.list == s.list && s'.tokens == s.tokens
    ensures SideInv(s')
  {
    hide V;
    SamePollers(s, s');
  }

  lemma SelectKeeps(s: Side, s': Side, t: nat)
    requires SideInv(s) && Others(s, s', t) && s.owner == By(t)
    requires V(s, t).left > 0 && V(s, t) == IDLE.(lock := true, left := V(s, t).left)
    requires s.list != []
    requires V(s', t) == IDLE.(lock := true, left := V(s, t).left - 1, to := Waiter(s.list[0]))
    requires s'.pollers == s.pollers && s'.parked == s.parked && s'.owner == s.owner
    requires s'.list == s.list[1..] && s'.tokens == s.tokens
    ensures SideInv(s')
  {
    hide V;
    var u := s.list[0];
    assert forall w :: w in s.list <==> w in s'.list || w == u;
    assert u !in s'.list;
    WaitingIsNotActive(s, u);
    MorePollers(s, s', u);
  }

  lemma SendKeeps(s: Side, s': Side, t: nat)
    requires SideInv(s) && Others(s, s', t) && s.owner == By(t)
    requires V(s, t).to.Waiter? && V(s', t) == V(s, t).(to := NoOne)
    requires !V(s, t).waits
    requires s'.pollers == s.pollers && s'.parked == s.parked && s'.owner == s.owner
    requires s'.list == s.list && s'.tokens == s.tokens + {V(s, t).to.call}
    ensures SideInv(s')
  {
    hide V;
    SamePollers(s, s');
  }

  lemma ReceiveKeeps(s: Side, s': Side, t: nat)
    requires SideInv(s) && Others(s, s', t) && t in s.tokens
    requires !V(s, t).lock && !V(s, t).active && V(s', t) == IDLE.(active := true)
    requires s'.pollers == s.pollers && s'.parked == s.parked && s'.owner == s.owner
    requires s'.list == s.list && s'.tokens == s.tokens - {t}
    ensures SideInv(s')
  {
    hide V;
    SamePollers(s, s');
  }
}
