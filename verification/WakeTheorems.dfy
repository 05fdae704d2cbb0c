/** The invariant of whole runs of the wait side, and what it promises. */
module WakeTheorems {
  import opened WakeProtocol
  import opened WakeInvariant

  // ---------------------------------------------------------------------------------------
  // No lost wakeup

  /** A call that will look again, or wake, before it is done with the side. */
  predicate Owes(pc: PC) {
    match pc
    case Check => true
    case Probe(pollers) => pollers == 0
    case Clean(pollers, parked, _) => pollers == 0 && parked > 0
    case Recheck(_) => true
    case Wake(_, _) => true
    case WakeHeld(_, _) => true
    case EnlistLink => true
    case Extra => true
    case QuitLock(moved, _) => moved
    case QuitHeld(moved, _) => moved
    case QuitCount(moved, _) => moved
    case _ => false
  }

  ghost predicate SomeoneOwes(s: Side) {
    exists t :: t in s.calls && Owes(s.calls[t])
  }

  /** While supply is visible and a call is parked, a poller is registered or a call owes a wake. */
  ghost predicate WakeInv(s: Side) {
    s.visible > 0 && s.parked > 0 ==> s.pollers > 0 || SomeoneOwes(s)
  }

  predicate Aimed(pc: PC, cap: nat) {
    pc.Wake? || pc.WakeHeld? ==> 1 <= pc.target <= cap
  }

  /** Every wake under way aims at some number of pollers up to the cap; no call has panicked. */
  ghost predicate TargetInv(s: Side) {
    forall t :: t in s.calls ==> Aimed(s.calls[t], s.cap) && s.calls[t] != Panicked
  }

  // ---------------------------------------------------------------------------------------
  // Close and the drain

  predicate Draining(pc: PC) {
    || pc.Drain? || pc == Returned(Ended) || pc == CloseDone
    || ((pc.Leave? || pc.QuitLock? || pc.QuitHeld? || pc.QuitCount? || pc.AwaitToken? || pc.Recheck? || pc.Clean?
         || pc.Wake? || pc.WakeHeld? || pc.Send? || pc.SendTo?) && pc.next.ToDrain?)
  }

  ghost predicate CloseInv(s: Side) {
    && (s.done ==> s.closed)
    && (s.closed && !s.done ==> s.owner.By? && s.owner.call in s.calls && s.calls[s.owner.call] == CloseDone)
    && (forall t :: t in s.calls && Draining(s.calls[t]) ==> s.closed)
  }

  ghost predicate SupplyInv(s: Side) {
    && s.accepted == s.visible + s.hidden + s.acquired
    && (s.hidden > 0 ==> exists t :: t in s.calls && s.calls[t].Filling?)
    && (s.closed && !s.raced ==> forall t :: t in s.calls ==> !Supplying(s.calls[t]))
    && (forall t :: t in s.calls && s.calls[t] == Returned(Ended) && !s.raced ==> s.visible == 0)
    && (s.raced ==> s.closed)
  }

  ghost predicate Inv(s: Side) {
    SideInv(s) && WakeInv(s) && TargetInv(s) && CloseInv(s) && SupplyInv(s)
  }

  // ---------------------------------------------------------------------------------------
  // One call moves

  /** `t` is at `pc` afterwards and no other call moved. */
  ghost predicate Moves(s: Side, s': Side, t: nat, pc: PC) {
    && t in s.calls && s'.calls == s.calls[t := pc]
    && s'.cap == s.cap && s'.batch == s.batch
  }

  lemma MovesOthers(s: Side, s': Side, t: nat, pc: PC)
    requires Moves(s, s', t, pc)
    ensures Others(s, s', t) && V(s', t) == ViewOf(pc) && V(s, t) == ViewOf(s.calls[t])
  {
  }

  /** A step meets its duty when afterwards a poller is registered, or its own call owes a wake,
      or it left the duty with the call that had it. */
  ghost predicate DutyMet(s: Side, s': Side, t: nat, pc: PC)
    requires t in s.calls
  {
    s'.visible > 0 && s'.parked > 0 ==>
      || s'.pollers > 0 || Owes(pc)
      || (s.visible > 0 && s.parked > 0 && s.pollers == 0 && !Owes(s.calls[t]))
  }

  lemma DutyKept(s: Side, s': Side, t: nat, pc: PC)
    requires WakeInv(s) && TargetInv(s) && Moves(s, s', t, pc)
    requires DutyMet(s, s', t, pc) && Aimed(pc, s.cap) && pc != Panicked
    ensures WakeInv(s') && TargetInv(s')
  {
    hide Owes;
    if s'.visible > 0 && s'.parked > 0 && s'.pollers == 0 {
      if Owes(pc) {
        assert s'.calls[t] == pc;
      } else {
        var u :| u in s.calls && Owes(s.calls[u]);
        assert u in s'.calls && s'.calls[u] == s.calls[u];
      }
    }
  }

  /** Closure, the done channel and the engine are untouched. */
  ghost predicate Untouched(s: Side, s': Side) {
    && s'.closed == s.closed && s'.done == s.done && s'.raced == s.raced
    && s'.visible == s.visible && s'.hidden == s.hidden && s'.accepted == s.accepted && s'.acquired == s.acquired
  }

  ghost predicate Handed(s: Side, s': Side, t: nat) {
    s'.owner == s.owner || s.owner == Nobody || s.owner == By(t)
  }

  lemma ClosedKept(s: Side, s': Side, t: nat, pc: PC)
    requires CloseInv(s) && Moves(s, s', t, pc)
    requires s'.closed == s.closed && s'.done == s.done
    requires Handed(s, s', t) && s.calls[t] != CloseDone
    requires Draining(pc) ==> s.closed
    ensures CloseInv(s')
  {
    hide Draining;
  }

  lemma SupplyKept(s: Side, s': Side, t: nat, pc: PC)
    requires SupplyInv(s) && Moves(s, s', t, pc) && Untouched(s, s')
    requires !s.calls[t].Filling?
    requires Supplying(pc) ==> Supplying(s.calls[t]) || !s.closed
    requires pc != Returned(Ended)
    ensures SupplyInv(s')
  {
    hide Supplying;
    if s.hidden > 0 {
      var u :| u in s.calls && s.calls[u].Filling?;
      assert s'.calls[u].Filling?;
    }
  }

  /** A step that leaves the engine and the closed flag alone keeps the whole invariant when it
      keeps the side, meets its duty, and neither starts a supply nor a drain out of turn. */
  lemma QuietKeeps(s: Side, s': Side, t: nat, pc: PC)
    requires Inv(s) && SideInv(s') && Moves(s, s', t, pc) && Untouched(s, s') && Handed(s, s', t)
    requires DutyMet(s, s', t, pc) && Aimed(pc, s.cap) && pc != Panicked
    requires s.calls[t] != CloseDone && !s.calls[t].Filling?
    requires Draining(pc) ==> s.closed
    requires Supplying(pc) ==> Supplying(s.calls[t]) || !s.closed
    requires pc != Returned(Ended)
    ensures Inv(s')
  {
    hide SideInv, WakeInv, TargetInv, CloseInv, SupplyInv, Draining, Supplying, Owes, DutyMet, Aimed;
    DutyKept(s, s', t, pc);
    ClosedKept(s, s', t, pc);
    SupplyKept(s, s', t, pc);
  }

  lemma DrainedClosed(s: Side, t: nat)
    requires Inv(s) && t in s.calls && Draining(s.calls[t])
    ensures s.closed
  {
  }

  lemma ActiveCounted(s: Side, t: nat)
    requires SideInv(s) && (V(s, t).active || (V(s, t).waits && t !in s.list))
    ensures s.pollers > 0
  {
    assert Registered(s, t);
    PollerCounted(s, t);
  }

  /** The holder of the mutex, and what its position says of the word, the list and the tokens. */
  lemma HolderOwns(s: Side, t: nat)
    requires SideInv(s) && V(s, t).lock
    ensures s.owner == By(t) && Holder(s) == V(s, t)
    ensures V(s, t).ahead > 0 && V(s, t).left == 0 ==> s.parked > 0
    ensures V(s, t).left > 0 && V(s, t).ahead == 0 ==> s.list != []
    ensures V(s, t).to.Waiter? ==> V(s, t).to.call !in s.tokens
  {
  }

  /** Resuming needs no mutex, owes nothing, drains only after closure and supplies only for a supplier. */
  lemma ResumeFacts(next: Then)
    ensures ViewOf(Resume(next)) == IDLE && !Owes(Resume(next)) && (Supplying(Resume(next)) ==> next.Pushed?)
    ensures !Resume(next).Wake? && !Resume(next).WakeHeld? && !Resume(next).Panicked?
    ensures Draining(Resume(next)) ==> next.ToDrain?
    ensures Resume(next) != Returned(Ended)
    ensures !Resume(next).Send? && !Resume(next).Wake?
  {
  }

  lemma SideOf(s: Side)
    requires Inv(s)
    ensures SideInv(s) && s.cap > 0 && s.batch > 0
    ensures forall t :: t in s.calls ==> Aimed(s.calls[t], s.cap)
  {
  }

  // ---------------------------------------------------------------------------------------
  // Parking and leaving

  lemma LeaveInv(s: Side, t: nat, a: nat, s': Side)
    requires Inv(s) && t in s.calls && s.calls[t].Leave? && GoEnabled(s, t, s.calls[t], a)
    requires s.batch > 0 && s' == TakerStep(s, t, s.calls[t], a)
    ensures Inv(s')
  {
    hide Inv, SideInv, V, Registered, Target, Without, GoEnabled;
    SideOf(s);
    assert Draining(s.calls[t]) ==> s.closed by { if Draining(s.calls[t]) { DrainedClosed(s, t); } }
    assert Moves(s, s', t, s'.calls[t]);
    MovesOthers(s, s', t, s'.calls[t]);
    ActiveCounted(s, t);
    assert SideInv(s') by { LeaveKeeps(s, s', t); }
    QuietKeeps(s, s', t, s'.calls[t]);
  }

  lemma EnlistLockInv(s: Side, t: nat, a: nat, s': Side)
    requires Inv(s) && t in s.calls && s.calls[t].EnlistLock? && GoEnabled(s, t, s.calls[t], a)
    requires s.batch > 0 && s' == TakerStep(s, t, s.calls[t], a)
    ensures Inv(s')
  {
    hide Inv, SideInv, V, Registered, Target, Without;
    SideOf(s);
    assert Draining(s.calls[t]) ==> s.closed by { if Draining(s.calls[t]) { DrainedClosed(s, t); } }
    assert Moves(s, s', t, s'.calls[t]);
    MovesOthers(s, s', t, s'.calls[t]);
    assert SideInv(s') by { LockKeeps(s, s', t); }
    QuietKeeps(s, s', t, s'.calls[t]);
  }

  lemma EnlistHeldInv(s: Side, t: nat, a: nat, s': Side)
    requires Inv(s) && t in s.calls && s.calls[t].EnlistHeld? && GoEnabled(s, t, s.calls[t], a)
    requires s.batch > 0 && s' == TakerStep(s, t, s.calls[t], a)
    ensures Inv(s')
  {
    hide Inv, SideInv, V, Registered, Target, Without, GoEnabled;
    SideOf(s);
    assert Draining(s.calls[t]) ==> s.closed by { if Draining(s.calls[t]) { DrainedClosed(s, t); } }
    assert Moves(s, s', t, s'.calls[t]);
    MovesOthers(s, s', t, s'.calls[t]);
    HolderOwns(s, t);
    ActiveCounted(s, t);
    assert SideInv(s') by {
      if s.closed { UnlockKeeps(s, s', t, false); } else { ParkKeeps(s, s', t); }
    }
    QuietKeeps(s, s', t, s'.calls[t]);
  }

  lemma EnlistLinkInv(s: Side, t: nat, a: nat, s': Side)
    requires Inv(s) && t in s.calls && s.calls[t].EnlistLink? && GoEnabled(s, t, s.calls[t], a)
    requires s.batch > 0 && s' == TakerStep(s, t, s.calls[t], a)
    ensures Inv(s')
  {
    hide Inv, SideInv, V, Registered, Target, Without, GoEnabled;
    SideOf(s);
    assert Draining(s.calls[t]) ==> s.closed by { if Draining(s.calls[t]) { DrainedClosed(s, t); } }
    assert Moves(s, s', t, s'.calls[t]);
    MovesOthers(s, s', t, s'.calls[t]);
    HolderOwns(s, t);
    assert SideInv(s') by { LinkKeeps(s, s', t); }
    QuietKeeps(s, s', t, s'.calls[t]);
  }

  lemma QuitLockInv(s: Side, t: nat, a: nat, s': Side)
    requires Inv(s) && t in s.calls && s.calls[t].QuitLock? && GoEnabled(s, t, s.calls[t], a)
    requires s.batch > 0 && s' == TakerStep(s, t, s.calls[t], a)
    ensures Inv(s')
  {
    hide Inv, SideInv, V, Registered, Target, Without;
    SideOf(s);
    assert Draining(s.calls[t]) ==> s.closed by { if Draining(s.calls[t]) { DrainedClosed(s, t); } }
    assert Moves(s, s', t, s'.calls[t]);
    MovesOthers(s, s', t, s'.calls[t]);
    assert SideInv(s') by { LockKeeps(s, s', t); }
    QuietKeeps(s, s', t, s'.calls[t]);
  }

  lemma UnlinkInv(s: Side, t: nat, a: nat, s': Side)
    requires Inv(s) && t in s.calls && s.calls[t].QuitHeld? && GoEnabled(s, t, s.calls[t], a)
    requires s.batch > 0 && s' == TakerStep(s, t, s.calls[t], a)
    requires t in s.list
    ensures Inv(s')
  {
    hide Inv, SideInv, V, Registered, Target, Without, GoEnabled;
    SideOf(s);
    assert Draining(s.calls[t]) ==> s.closed by { if Draining(s.calls[t]) { DrainedClosed(s, t); } }
    assert Moves(s, s', t, s'.calls[t]);
    MovesOthers(s, s', t, s'.calls[t]);
    HolderOwns(s, t);
    assert SideInv(s') by { UnlinkKeeps(s, s', t); }
    QuietKeeps(s, s', t, s'.calls[t]);
  }

  lemma SelectedInv(s: Side, t: nat, a: nat, s': Side)
    requires Inv(s) && t in s.calls && s.calls[t].QuitHeld? && GoEnabled(s, t, s.calls[t], a)
    requires s.batch > 0 && s' == TakerStep(s, t, s.calls[t], a)
    requires t !in s.list
    ensures Inv(s')
  {
    hide Inv, SideInv, V, Registered, Target, Without, GoEnabled;
    SideOf(s);
    assert Draining(s.calls[t]) ==> s.closed by { if Draining(s.calls[t]) { DrainedClosed(s, t); } }
    assert Moves(s, s', t, s'.calls[t]);
    MovesOthers(s, s', t, s'.calls[t]);
    HolderOwns(s, t);
    ActiveCounted(s, t);
    assert SideInv(s') by { UnlockKeeps(s, s', t, true); }
    QuietKeeps(s, s', t, s'.calls[t]);
  }

  lemma UncountInv(s: Side, t: nat, a: nat, s': Side)
    requires Inv(s) && t in s.calls && s.calls[t].QuitCount? && GoEnabled(s, t, s.calls[t], a)
    requires s.batch > 0 && s' == TakerStep(s, t, s.calls[t], a)
    requires !s.calls[t].moved
    ensures Inv(s')
  {
    hide Inv, SideInv, V, Registered, Target, Without, Resume, GoEnabled;
    SideOf(s);
    ResumeFacts(s.calls[t].next);
    assert Draining(s.calls[t]) ==> s.closed by { if Draining(s.calls[t]) { DrainedClosed(s, t); } }
    assert Moves(s, s', t, s'.calls[t]);
    MovesOthers(s, s', t, s'.calls[t]);
    HolderOwns(s, t);
    assert SideInv(s') by { UncountKeeps(s, s', t); }
    QuietKeeps(s, s', t, s'.calls[t]);
  }

  lemma UncountMovedInv(s: Side, t: nat, a: nat, s': Side)
    requires Inv(s) && t in s.calls && s.calls[t].QuitCount? && GoEnabled(s, t, s.calls[t], a)
    requires s.batch > 0 && s' == TakerStep(s, t, s.calls[t], a)
    requires s.calls[t].moved
    ensures Inv(s')
  {
    hide Inv, SideInv, V, Registered, Target, Without, Resume, GoEnabled;
    SideOf(s);
    assert Draining(s.calls[t]) ==> s.closed by { if Draining(s.calls[t]) { DrainedClosed(s, t); } }
    assert Moves(s, s', t, s'.calls[t]);
    MovesOthers(s, s', t, s'.calls[t]);
    HolderOwns(s, t);
    assert SideInv(s') by { UncountKeeps(s, s', t); }
    QuietKeeps(s, s', t, s'.calls[t]);
  }

  lemma AwaitTokenInv(s: Side, t: nat, a: nat, s': Side)
    requires Inv(s) && t in s.calls && s.calls[t].AwaitToken? && GoEnabled(s, t, s.calls[t], a)
    requires s.batch > 0 && s' == TakerStep(s, t, s.calls[t], a)
    ensures Inv(s')
  {
    hide Inv, SideInv, V, Registered, Target, Without;
    SideOf(s);
    assert Draining(s.calls[t]) ==> s.closed by { if Draining(s.calls[t]) { DrainedClosed(s, t); } }
    assert Moves(s, s', t, s'.calls[t]);
    MovesOthers(s, s', t, s'.calls[t]);
    assert SideInv(s') by { ReceiveKeeps(s, s', t); }
    QuietKeeps(s, s', t, s'.calls[t]);
  }

  lemma CloseCheckInv(s: Side, t: nat, a: nat, s': Side)
    requires Inv(s) && t in s.calls && s.calls[t].CloseCheck? && GoEnabled(s, t, s.calls[t], a)
    requires s.batch > 0 && s' == TakerStep(s, t, s.calls[t], a)
    ensures Inv(s')
  {
    hide Inv, SideInv, V, Registered, Target, Without;
    SideOf(s);
    assert Draining(s.calls[t]) ==> s.closed by { if Draining(s.calls[t]) { DrainedClosed(s, t); } }
    assert Moves(s, s', t, s'.calls[t]);
    MovesOthers(s, s', t, s'.calls[t]);
    assert SideInv(s') by { LocalKeeps(s, s', t); }
    QuietKeeps(s, s', t, s'.calls[t]);
  }

  // ---------------------------------------------------------------------------------------
  // Waking

  lemma TargetBounds(cap: nat, batch: nat, available: nat)
    requires cap > 0 && batch > 0
    ensures Target(cap, batch, available) <= cap
    ensures available > 0 ==> Target(cap, batch, available) >= 1
  {
  }

  lemma RecheckInv(s: Side, t: nat, a: nat, s': Side)
    requires Inv(s) && t in s.calls && s.calls[t].Recheck? && GoEnabled(s, t, s.calls[t], a)
    requires s.batch > 0 && s' == WakeStep(s, t, s.calls[t], a)
    ensures Inv(s')
  {
    hide Inv, SideInv, V, Registered, Target, Without;
    SideOf(s);
    assert Draining(s.calls[t]) ==> s.closed by { if Draining(s.calls[t]) { DrainedClosed(s, t); } }
    assert Moves(s, s', t, s'.calls[t]);
    MovesOthers(s, s', t, s'.calls[t]);
    assert SideInv(s') by { LocalKeeps(s, s', t); }
    QuietKeeps(s, s', t, s'.calls[t]);
  }

  lemma CleanInv(s: Side, t: nat, a: nat, s': Side)
    requires Inv(s) && t in s.calls && s.calls[t].Clean? && GoEnabled(s, t, s.calls[t], a)
    requires s.batch > 0 && s' == WakeStep(s, t, s.calls[t], a)
    ensures Inv(s')
  {
    hide Inv, SideInv, V, Registered, Target, Without, Resume;
    SideOf(s);
    ResumeFacts(s.calls[t].next);
    assert Draining(s.calls[t]) ==> s.closed by { if Draining(s.calls[t]) { DrainedClosed(s, t); } }
    assert Moves(s, s', t, s'.calls[t]);
    MovesOthers(s, s', t, s'.calls[t]);
    TargetBounds(s.cap, s.batch, a);
    assert SideInv(s') by { LocalKeeps(s, s', t); }
    QuietKeeps(s, s', t, s'.calls[t]);
  }

  lemma WakeLockInv(s: Side, t: nat, a: nat, s': Side)
    requires Inv(s) && t in s.calls && s.calls[t].Wake? && GoEnabled(s, t, s.calls[t], a)
    requires s.batch > 0 && s' == WakeStep(s, t, s.calls[t], a)
    ensures Inv(s')
  {
    hide Inv, SideInv, V, Registered, Target, Without;
    SideOf(s);
    assert Draining(s.calls[t]) ==> s.closed by { if Draining(s.calls[t]) { DrainedClosed(s, t); } }
    assert Moves(s, s', t, s'.calls[t]);
    MovesOthers(s, s', t, s'.calls[t]);
    assert SideInv(s') by { LockKeeps(s, s', t); }
    QuietKeeps(s, s', t, s'.calls[t]);
  }

  lemma WakeNobodyInv(s: Side, t: nat, a: nat, s': Side)
    requires Inv(s) && t in s.calls && s.calls[t].WakeHeld? && GoEnabled(s, t, s.calls[t], a)
    requires s.batch > 0 && s' == WakeStep(s, t, s.calls[t], a)
    requires s.parked == 0 || s.pollers >= s.calls[t].target
    ensures Inv(s')
  {
    hide Inv, SideInv, V, Registered, Target, Without, Resume, GoEnabled;
    SideOf(s);
    ResumeFacts(s.calls[t].next);
    assert Draining(s.calls[t]) ==> s.closed by { if Draining(s.calls[t]) { DrainedClosed(s, t); } }
    assert Moves(s, s', t, s'.calls[t]);
    MovesOthers(s, s', t, s'.calls[t]);
    HolderOwns(s, t);
    assert SideInv(s') by { UnlockKeeps(s, s', t, false); }
    QuietKeeps(s, s', t, s'.calls[t]);
  }

  lemma TransferInv(s: Side, t: nat, a: nat, s': Side)
    requires Inv(s) && t in s.calls && s.calls[t].WakeHeld? && GoEnabled(s, t, s.calls[t], a)
    requires s.batch > 0 && s' == WakeStep(s, t, s.calls[t], a)
    requires s.parked > 0 && s.pollers < s.calls[t].target
    ensures Inv(s')
  {
    hide Inv, SideInv, V, Registered, Target, Without, Resume, GoEnabled;
    SideOf(s);
    ResumeFacts(s.calls[t].next);
    assert Draining(s.calls[t]) ==> s.closed by { if Draining(s.calls[t]) { DrainedClosed(s, t); } }
    assert Moves(s, s', t, s'.calls[t]);
    MovesOthers(s, s', t, s'.calls[t]);
    HolderOwns(s, t);
    assert SideInv(s') by { TransferKeeps(s, s', t, s'.calls[t].left); }
    QuietKeeps(s, s', t, s'.calls[t]);
  }

  lemma WokenInv(s: Side, t: nat, a: nat, s': Side)
    requires Inv(s) && t in s.calls && s.calls[t].Send? && GoEnabled(s, t, s.calls[t], a)
    requires s.batch > 0 && s' == WakeStep(s, t, s.calls[t], a)
    requires s.calls[t].left == 0
    ensures Inv(s')
  {
    hide Inv, SideInv, V, Registered, Target, Without, Resume, GoEnabled;
    SideOf(s);
    ResumeFacts(s.calls[t].next);
    assert Draining(s.calls[t]) ==> s.closed by { if Draining(s.calls[t]) { DrainedClosed(s, t); } }
    assert Moves(s, s', t, s'.calls[t]);
    MovesOthers(s, s', t, s'.calls[t]);
    HolderOwns(s, t);
    assert SideInv(s') by { UnlockKeeps(s, s', t, false); }
    QuietKeeps(s, s', t, s'.calls[t]);
  }

  lemma SelectViews(pc: PC, waiter: nat)
    requires pc.Send? && pc.left > 0
    ensures ViewOf(pc) == IDLE.(lock := true, left := pc.left)
    ensures ViewOf(SendTo(waiter, pc.left - 1, pc.next)) == IDLE.(lock := true, left := pc.left - 1, to := Waiter(waiter))
  {
  }

  lemma SelectInv(s: Side, t: nat, a: nat, s': Side)
    requires Inv(s) && t in s.calls && s.calls[t].Send? && GoEnabled(s, t, s.calls[t], a)
    requires s.batch > 0 && s' == WakeStep(s, t, s.calls[t], a)
    requires s.calls[t].left > 0
    ensures Inv(s')
  {
    hide Inv, SideInv, V, Registered, Target, Without, Resume, GoEnabled, AfterClean, ViewOf;
    SideOf(s);
    SelectViews(s.calls[t], if s.list == [] then 0 else s.list[0]);
    assert Draining(s.calls[t]) ==> s.closed by { if Draining(s.calls[t]) { DrainedClosed(s, t); } }
    assert Moves(s, s', t, s'.calls[t]);
    MovesOthers(s, s', t, s'.calls[t]);
    HolderOwns(s, t);
    assert SideInv(s') by { SelectKeeps(s, s', t); }
    QuietKeeps(s, s', t, s'.calls[t]);
  }

  lemma SendViews(pc: PC)
    requires pc.SendTo?
    ensures ViewOf(pc) == IDLE.(lock := true, left := pc.left, to := Waiter(pc.waiter))
    ensures ViewOf(Send(pc.left, pc.next)) == IDLE.(lock := true, left := pc.left)
  {
  }

  lemma SendToInv(s: Side, t: nat, a: nat, s': Side)
    requires Inv(s) && t in s.calls && s.calls[t].SendTo? && GoEnabled(s, t, s.calls[t], a)
    requires s.batch > 0 && s' == WakeStep(s, t, s.calls[t], a)
    ensures Inv(s')
  {
    hide Inv, SideInv, V, Registered, Target, Without, Resume, GoEnabled, AfterClean, ViewOf;
    SideOf(s);
    SendViews(s.calls[t]);
    assert Draining(s.calls[t]) ==> s.closed by { if Draining(s.calls[t]) { DrainedClosed(s, t); } }
    assert Moves(s, s', t, s'.calls[t]);
    MovesOthers(s, s', t, s'.calls[t]);
    HolderOwns(s, t);
    assert SideInv(s') by { SendKeeps(s, s', t); }
    QuietKeeps(s, s', t, s'.calls[t]);
  }

  // ---------------------------------------------------------------------------------------
  // Supplying and closing

  lemma OfferInv(s: Side, t: nat, a: nat, s': Side)
    requires Inv(s) && t in s.calls && s.calls[t].Offer? && GoEnabled(s, t, s.calls[t], a)
    requires s.batch > 0 && s' == SupplyStep(s, t, s.calls[t], a)
    ensures Inv(s')
  {
    hide Inv, SideInv, V, Registered, Target, Without, GoEnabled;
    SideOf(s);
    assert Draining(s.calls[t]) ==> s.closed by { if Draining(s.calls[t]) { DrainedClosed(s, t); } }
    assert Moves(s, s', t, s'.calls[t]);
    MovesOthers(s, s', t, s'.calls[t]);
    assert SideInv(s') by { LocalKeeps(s, s', t); }
    QuietKeeps(s, s', t, s'.calls[t]);
  }

  lemma CheckInv(s: Side, t: nat, a: nat, s': Side)
    requires Inv(s) && t in s.calls && s.calls[t].Check? && GoEnabled(s, t, s.calls[t], a)
    requires s.batch > 0 && s' == SupplyStep(s, t, s.calls[t], a)
    ensures Inv(s')
  {
    hide Inv, SideInv, V, Registered, Target, Without, GoEnabled;
    SideOf(s);
    assert Draining(s.calls[t]) ==> s.closed by { if Draining(s.calls[t]) { DrainedClosed(s, t); } }
    assert Moves(s, s', t, s'.calls[t]);
    MovesOthers(s, s', t, s'.calls[t]);
    assert SideInv(s') by { LocalKeeps(s, s', t); }
    QuietKeeps(s, s', t, s'.calls[t]);
  }

  lemma ProbeInv(s: Side, t: nat, a: nat, s': Side)
    requires Inv(s) && t in s.calls && s.calls[t].Probe? && GoEnabled(s, t, s.calls[t], a)
    requires s.batch > 0 && s' == SupplyStep(s, t, s.calls[t], a)
    ensures Inv(s')
  {
    hide Inv, SideInv, V, Registered, Target, Without;
    SideOf(s);
    assert Draining(s.calls[t]) ==> s.closed by { if Draining(s.calls[t]) { DrainedClosed(s, t); } }
    assert Moves(s, s', t, s'.calls[t]);
    MovesOthers(s, s', t, s'.calls[t]);
    TargetBounds(s.cap, s.batch, a);
    assert SideInv(s') by { LocalKeeps(s, s', t); }
    QuietKeeps(s, s', t, s'.calls[t]);
  }

  lemma CloseLockInv(s: Side, t: nat, a: nat, s': Side)
    requires Inv(s) && t in s.calls && s.calls[t].CloseLock? && GoEnabled(s, t, s.calls[t], a)
    requires s.batch > 0 && s' == SupplyStep(s, t, s.calls[t], a)
    ensures Inv(s')
  {
    hide Inv, SideInv, V, Registered, Target, Without;
    SideOf(s);
    assert Draining(s.calls[t]) ==> s.closed by { if Draining(s.calls[t]) { DrainedClosed(s, t); } }
    assert Moves(s, s', t, s'.calls[t]);
    MovesOthers(s, s', t, s'.calls[t]);
    assert SideInv(s') by { LockKeeps(s, s', t); }
    QuietKeeps(s, s', t, s'.calls[t]);
  }

  lemma PutInv(s: Side, t: nat, a: nat, s': Side)
    requires Inv(s) && t in s.calls && s.calls[t].Put? && s.batch > 0 && s' == SupplyStep(s, t, Put, a)
    ensures Inv(s')
  {
    hide SideInv, WakeInv, TargetInv, CloseInv, V;
    var pc := s'.calls[t];
    assert Moves(s, s', t, pc);
    MovesOthers(s, s', t, pc);
    LocalKeeps(s, s', t);
    DutyKept(s, s', t, pc);
    ClosedKept(s, s', t, pc);
    if s'.hidden > 0 {
      if a == 0 {
        var u :| u in s.calls && s.calls[u].Filling?;
        assert s'.calls[u].Filling?;
      } else {
        assert s'.calls[t].Filling?;
      }
    }
  }

  lemma FillingInv(s: Side, t: nat, a: nat, s': Side)
    requires Inv(s) && t in s.calls && s.calls[t].Filling? && GoEnabled(s, t, Filling, a)
    requires s.batch > 0 && s' == SupplyStep(s, t, Filling, a)
    ensures Inv(s')
  {
    hide SideInv, WakeInv, TargetInv, V;
    assert Moves(s, s', t, Check);
    MovesOthers(s, s', t, Check);
    LocalKeeps(s, s', t);
    DutyKept(s, s', t, Check);
    ClosedKept(s, s', t, Check);
    if s'.hidden > 0 {
      var u :| u in s.calls && u != t && s.calls[u].Filling?;
      assert s'.calls[u].Filling?;
    }
  }

  lemma CloseAgainInv(s: Side, t: nat, a: nat, s': Side)
    requires Inv(s) && t in s.calls && s.calls[t].CloseHeld? && s.closed
    requires s.batch > 0 && s' == SupplyStep(s, t, CloseHeld, a)
    ensures Inv(s')
  {
    hide Inv, SideInv, V;
    SideOf(s);
    assert Moves(s, s', t, Returned(Closed));
    MovesOthers(s, s', t, Returned(Closed));
    HolderOwns(s, t);
    assert SideInv(s') by { UnlockKeeps(s, s', t, false); }
    QuietKeeps(s, s', t, Returned(Closed));
  }

  lemma CloseHeldInv(s: Side, t: nat, a: nat, s': Side)
    requires Inv(s) && t in s.calls && s.calls[t].CloseHeld? && !s.closed
    requires s.batch > 0 && s' == SupplyStep(s, t, CloseHeld, a)
    ensures Inv(s')
  {
    hide SideInv, WakeInv, TargetInv, V;
    assert Moves(s, s', t, CloseDone);
    MovesOthers(s, s', t, CloseDone);
    HolderOwns(s, t);
    LocalKeeps(s, s', t);
    DutyKept(s, s', t, CloseDone);
    if s.hidden > 0 {
      var u :| u in s.calls && s.calls[u].Filling?;
      assert s'.calls[u].Filling?;
    }
  }

  lemma CloseDoneInv(s: Side, t: nat, a: nat, s': Side)
    requires Inv(s) && t in s.calls && s.calls[t].CloseDone?
    requires s.batch > 0 && s' == SupplyStep(s, t, CloseDone, a)
    ensures Inv(s')
  {
    hide SideInv, WakeInv, TargetInv, V, Supplying;
    var pc := Returned(Closed);
    assert Moves(s, s', t, pc);
    MovesOthers(s, s', t, pc);
    HolderOwns(s, t);
    UnlockKeeps(s, s', t, false);
    DutyKept(s, s', t, pc);
    assert !Supplying(pc) by { assert !pc.Put?; PlainSupplying(pc); }
    if s.hidden > 0 {
      var u :| u in s.calls && s.calls[u].Filling?;
      assert s'.calls[u].Filling?;
    }
  }

  lemma PlainSupplying(pc: PC)
    requires pc.Returned? || pc.Drain?
    ensures !Supplying(pc) && !Owes(pc)
  {
  }

  // ---------------------------------------------------------------------------------------
  // Steps a caller may choose

  predicate Attempts(pc: PC) {
    pc.Free? || pc.Poll? || pc.Extra? || pc.Drain?
  }

  lemma AttemptFacts(pc: PC, m: nat, cap: nat)
    requires Attempts(pc)
    ensures ViewOf(AfterAttempt(pc, m)) == ViewOf(pc) && Aimed(AfterAttempt(pc, m), cap) && AfterAttempt(pc, m) != Panicked
    ensures Draining(AfterAttempt(pc, m)) ==> Draining(pc)
    ensures !Supplying(AfterAttempt(pc, m)) && !AfterAttempt(pc, m).Filling?
    ensures AfterAttempt(pc, m) == Returned(Ended) ==> m == 0
    ensures m > 0 && Owes(pc) ==> Owes(AfterAttempt(pc, m))
    ensures pc != CloseDone && !pc.Filling? && pc != Returned(Ended)
  {
  }

  lemma AttemptSupply(s: Side, t: nat, m: nat, s': Side, pc: PC)
    requires SupplyInv(s) && Moves(s, s', t, pc) && !s.calls[t].Filling? && !Supplying(pc)
    requires m <= s.visible && s'.visible == s.visible - m && s'.acquired == s.acquired + m
    requires s'.hidden == s.hidden && s'.accepted == s.accepted && s'.closed == s.closed && s'.raced == s.raced
    requires pc == Returned(Ended) ==> s'.visible == 0
    ensures SupplyInv(s')
  {
    hide Supplying;
    if s.hidden > 0 {
      var u :| u in s.calls && s.calls[u].Filling?;
      assert s'.calls[u].Filling?;
    }
  }

  lemma AttemptInv(s: Side, t: nat, m: nat, s': Side)
    requires Inv(s) && Enabled(s, Attempt(t, m)) && s' == Apply(s, Attempt(t, m))
    ensures Inv(s')
  {
    var pc := s'.calls[t];
    assert Moves(s, s', t, pc) && pc == AfterAttempt(s.calls[t], m);
    AttemptFacts(s.calls[t], m, s.cap);
    hide SideInv, WakeInv, TargetInv, CloseInv, SupplyInv, V, ViewOf, AfterAttempt, Owes, Draining, Supplying, Aimed;
    MovesOthers(s, s', t, pc);
    LocalKeeps(s, s', t);
    DutyKept(s, s', t, pc);
    assert Draining(s.calls[t]) ==> s.closed by { if Draining(s.calls[t]) { DrainedClosed(s, t); } }
    ClosedKept(s, s', t, pc);
    AttemptSupply(s, t, m, s', pc);
  }

  lemma EdgeInv(s: Side, x: Action, s': Side)
    requires Inv(s) && Enabled(s, x) && (x.Begin? || x.End?) && s' == Apply(s, x)
    ensures Inv(s')
  {
    hide SideInv, WakeInv, SupplyInv;
    SideOf(s);
    assert SideInv(s') by { EdgeSide(s, x, s'); }
    assert WakeInv(s') by { EdgeWake(s, x, s'); }
    assert SupplyInv(s') by { EdgeSupply(s, x, s'); }
  }

  lemma EdgeWake(s: Side, x: Action, s': Side)
    requires WakeInv(s) && Enabled(s, x) && (x.Begin? || x.End?) && s.batch > 0 && s' == Apply(s, x)
    ensures WakeInv(s')
  {
    if SomeoneOwes(s) {
      var u :| u in s.calls && Owes(s.calls[u]);
      assert u in s'.calls && s'.calls[u] == s.calls[u];
    }
  }

  lemma EdgeSupply(s: Side, x: Action, s': Side)
    requires SupplyInv(s) && Enabled(s, x) && (x.Begin? || x.End?) && s.batch > 0 && s' == Apply(s, x)
    ensures SupplyInv(s')
  {
    if s.hidden > 0 {
      var u :| u in s.calls && s.calls[u].Filling?;
      assert s'.calls[u].Filling?;
    }
  }

  lemma EdgeSide(s: Side, x: Action, s': Side)
    requires SideInv(s) && Enabled(s, x) && (x.Begin? || x.End?) && s' == Apply(s, x)
    ensures SideInv(s')
  {
    hide SideInv;
    LocalKeeps(s, s', x.t);
  }

  lemma RegisterInv(s: Side, x: Action, s': Side)
    requires Inv(s) && Enabled(s, x) && x.Register? && s' == Apply(s, x)
    ensures Inv(s')
  {
    hide Inv, SideInv, V;
    SideOf(s);
    var t, pc := x.t, s'.calls[x.t];
    assert Moves(s, s', t, pc);
    MovesOthers(s, s', t, pc);
    assert SideInv(s') by { if s.closed { LocalKeeps(s, s', t); } else { RegisterKeeps(s, s', t); } }
    QuietKeeps(s, s', t, pc);
  }

  lemma ReceiveTokenInv(s: Side, x: Action, s': Side)
    requires Inv(s) && Enabled(s, x) && x.ReceiveToken? && s' == Apply(s, x)
    ensures Inv(s')
  {
    hide Inv, SideInv, V;
    SideOf(s);
    var t, pc := x.t, s'.calls[x.t];
    assert Moves(s, s', t, pc);
    MovesOthers(s, s', t, pc);
    assert SideInv(s') by { ReceiveKeeps(s, s', t); }
    TokenHolder(s, t);
    QuietKeeps(s, s', t, pc);
  }

  lemma GiveUpInv(s: Side, x: Action, s': Side)
    requires Inv(s) && Enabled(s, x) && x.GiveUp? && s' == Apply(s, x)
    ensures Inv(s')
  {
    hide Inv, SideInv, V;
    SideOf(s);
    var t, pc := x.t, s'.calls[x.t];
    assert Moves(s, s', t, pc);
    MovesOthers(s, s', t, pc);
    assert SideInv(s') by { LocalKeeps(s, s', t); }
    QuietKeeps(s, s', t, pc);
  }

  lemma ChoiceInv(s: Side, x: Action, s': Side)
    requires Inv(s) && Enabled(s, x) && (x.SeeClosed? || x.Enlist? || x.ReceiveDone?) && s' == Apply(s, x)
    ensures Inv(s')
  {
    hide Inv, SideInv, V;
    SideOf(s);
    var t, pc := x.t, s'.calls[x.t];
    assert Moves(s, s', t, pc);
    MovesOthers(s, s', t, pc);
    assert SideInv(s') by { LocalKeeps(s, s', t); }
    if x.ReceiveDone? { DoneClosed(s); }
    QuietKeeps(s, s', t, pc);
  }

  lemma DoneClosed(s: Side)
    requires Inv(s) && s.done
    ensures s.closed
  {
  }

  lemma TokenHolder(s: Side, t: nat)
    requires SideInv(s) && t in s.tokens
    ensures s.pollers > 0
  {
    ActiveCounted(s, t);
  }

  // ---------------------------------------------------------------------------------------
  // Whole runs

  lemma TakerInv(s: Side, t: nat, a: nat, s': Side)
    requires Inv(s) && t in s.calls && TakerPC(s.calls[t]) && GoEnabled(s, t, s.calls[t], a)
    requires s.batch > 0 && s' == TakerStep(s, t, s.calls[t], a)
    ensures Inv(s')
  {
    hide Inv, TakerStep, GoEnabled;
    match s.calls[t]
    case Leave(_) => LeaveInv(s, t, a, s');
    case EnlistLock => EnlistLockInv(s, t, a, s');
    case EnlistHeld => EnlistHeldInv(s, t, a, s');
    case EnlistLink => EnlistLinkInv(s, t, a, s');
    case QuitLock(_, _) => QuitLockInv(s, t, a, s');
    case QuitHeld(_, _) => if t in s.list { UnlinkInv(s, t, a, s'); } else { SelectedInv(s, t, a, s'); }
    case QuitCount(moved, _) => if moved { UncountMovedInv(s, t, a, s'); } else { UncountInv(s, t, a, s'); }
    case AwaitToken(_) => AwaitTokenInv(s, t, a, s');
    case CloseCheck => CloseCheckInv(s, t, a, s');
  }

  lemma WakerInv(s: Side, t: nat, a: nat, s': Side)
    requires Inv(s) && t in s.calls && WakePC(s.calls[t]) && GoEnabled(s, t, s.calls[t], a)
    requires s.batch > 0 && s' == WakeStep(s, t, s.calls[t], a)
    ensures Inv(s')
  {
    hide Inv, WakeStep, GoEnabled;
    match s.calls[t]
    case Recheck(_) => RecheckInv(s, t, a, s');
    case Clean(_, _, _) => CleanInv(s, t, a, s');
    case Wake(_, _) => WakeLockInv(s, t, a, s');
    case WakeHeld(target, _) =>
      if s.parked == 0 || s.pollers >= target { WakeNobodyInv(s, t, a, s'); } else { TransferInv(s, t, a, s'); }
    case Send(left, _) => if left == 0 { WokenInv(s, t, a, s'); } else { SelectInv(s, t, a, s'); }
    case SendTo(_, _, _) => SendToInv(s, t, a, s');
  }

  lemma SupplierInv(s: Side, t: nat, a: nat, s': Side)
    requires Inv(s) && t in s.calls && SupplyPC(s.calls[t]) && GoEnabled(s, t, s.calls[t], a)
    requires s.batch > 0 && s' == SupplyStep(s, t, s.calls[t], a)
    ensures Inv(s')
  {
    hide Inv, SupplyStep, GoEnabled;
    match s.calls[t]
    case Offer => OfferInv(s, t, a, s');
    case Put => PutInv(s, t, a, s');
    case Filling => FillingInv(s, t, a, s');
    case Check => CheckInv(s, t, a, s');
    case Probe(_) => ProbeInv(s, t, a, s');
    case CloseLock => CloseLockInv(s, t, a, s');
    case CloseHeld => if s.closed { CloseAgainInv(s, t, a, s'); } else { CloseHeldInv(s, t, a, s'); }
    case CloseDone => CloseDoneInv(s, t, a, s');
  }

  lemma StepInv(s: Side, x: Action, s': Side)
    requires Inv(s) && s.batch > 0 && Enabled(s, x) && s' == Apply(s, x)
    ensures Inv(s')
  {
    hide Inv, TakerStep, WakeStep, SupplyStep, GoEnabled;
    match x
    case Begin(_, _) => EdgeInv(s, x, s');
    case End(_) => EdgeInv(s, x, s');
    case Attempt(t, m) => AttemptInv(s, t, m, s');
    case Go(t, a) =>
      if TakerPC(s.calls[t]) {
        TakerInv(s, t, a, s');
      } else if WakePC(s.calls[t]) {
        WakerInv(s, t, a, s');
      } else {
        assert SupplyPC(s.calls[t]) by { GoCovers(s, t, a); }
        SupplierInv(s, t, a, s');
      }
    case Register(_) => RegisterInv(s, x, s');
    case ReceiveToken(_) => ReceiveTokenInv(s, x, s');
    case GiveUp(_) => GiveUpInv(s, x, s');
    case _ => ChoiceInv(s, x, s');
  }

  lemma GoCovers(s: Side, t: nat, a: nat)
    requires t in s.calls && GoEnabled(s, t, s.calls[t], a)
    ensures TakerPC(s.calls[t]) || WakePC(s.calls[t]) || SupplyPC(s.calls[t])
  {
  }

  lemma InitInv(s: Side)
    requires Init(s)
    ensures Inv(s)
  {
    InitSide(s);
  }

  lemma {:induction false} RunInv(run: seq<Side>, i: nat)
    requires Run(run) && i < |run|
    ensures Inv(run[i])
  {
    hide Inv, Init, Enabled, Apply;
    if i == 0 {
      InitInv(run[0]);
    } else {
      RunInv(run, i - 1);
      assert Next(run[i - 1], run[i - 1 + 1]);
      var x :| Enabled(run[i - 1], x) && run[i] == Apply(run[i - 1], x);
      StepInv(run[i - 1], x, run[i]);
    }
  }
}
