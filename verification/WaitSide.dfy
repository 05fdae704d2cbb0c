/** The wait side as an object: the packed word and the doubly linked list of parked waiters, updated
    in place. Each method is one critical section or one successful compare-and-swap. */
module WaitSide {
  import opened SideWord

  /** `token` is the one-slot channel of the waiter. */
  class Waiter {
    var prev: Waiter?
    var next: Waiter?
    var listed: bool
    var token: bool

    constructor ()
      ensures prev == null && next == null && !listed && !token
    {
      prev, next, listed, token := null, null, false, false;
    }
  }

  ghost function At(list: seq<Waiter>, i: int): Waiter? {
    if 0 <= i < |list| then list[i] else null
  }

  ghost predicate Distinct(list: seq<Waiter>) {
    forall i, j | 0 <= i < j < |list| :: list[i] != list[j]
  }

  ghost predicate InPlace(list: seq<Waiter>, i: int)
    requires 0 <= i < |list|
    reads list
  {
    list[i].prev == At(list, i - 1) && list[i].next == At(list, i + 1) && list[i].listed && !list[i].token
  }

  lemma Apart(list: seq<Waiter>, i: nat, j: nat)
    requires Distinct(list) && i < |list| && j < |list|
    ensures i != j ==> list[i] != list[j]
  {
  }

  /** What a list is after its `k`-th waiter is removed. */
  lemma RemovedAt(was: seq<Waiter>, k: nat, i: nat)
    requires k < |was| && i < |was| - 1
    ensures
      var list := was[..k] + was[k + 1..];
      && list[i] == (if i < k then was[i] else was[i + 1])
      && At(list, i - 1) == (if i <= k then At(was, i - 1) else was[i])
      && At(list, i + 1) == (if i + 1 < k then was[i + 1] else At(was, i + 2))
  {
  }

  lemma RemovedEnds(was: seq<Waiter>, k: nat)
    requires k < |was|
    ensures
      var list := was[..k] + was[k + 1..];
      && At(list, 0) == (if k == 0 then At(was, 1) else was[0])
      && At(list, |list| - 1) == (if k == |was| - 1 then At(was, k - 1) else was[|was| - 1])
  {
  }

  lemma RemovedDistinct(was: seq<Waiter>, k: nat)
    requires k < |was| && Distinct(was)
    ensures Distinct(was[..k] + was[k + 1..])
  {
  }

  /** Ready for reuse: out of the list, with no links. */
  predicate Unlisted(w: Waiter)
    reads w
  {
    w.prev == null && w.next == null && !w.listed
  }

  class Side {
    var word: nat
    var oldest: Waiter?
    var newest: Waiter?
    ghost var list: seq<Waiter>

    /** The links spell out `list`, oldest first, and no listed waiter holds a token. */
    ghost predicate Linked()
      reads this, list
    {
      && Distinct(list)
      && oldest == At(list, 0) && newest == At(list, |list| - 1)
      && (forall i | 0 <= i < |list| :: InPlace(list, i))
    }

    ghost predicate Valid()
      reads this, list
    {
      Linked() && Packed(word) && ParkedOf(word) == |list|
    }

    constructor ()
      ensures Valid() && list == [] && PollersOf(word) == 0 && !ClosedOf(word)
    {
      word, oldest, newest, list := 0, null, null, [];
    }

    /** Adds a poller unless closed. The word stays well formed exactly if the count has room; past its
        limit it reads zero pollers. */
    method Register() returns (closed: bool)
      requires Valid()
      modifies this`word
      ensures closed == old(ClosedOf(word)) && word == old(word) + if closed then 0 else ONE_POLLER
      ensures Valid() <==> closed || old(PollersOf(word)) < COUNT_LIMIT - 1
      ensures Valid() ==> ClosedOf(word) == closed && PollersOf(word) == old(PollersOf(word)) + if closed then 0 else 1
      ensures !Valid() ==> PollersOf(word) == 0
    {
      closed := ClosedOf(word);
      if !closed {
        RegisterWord(word);
        word := word + ONE_POLLER;
      }
    }

    /** Drops one registration and returns the word it left, for the cleanup to decide on. */
    method LeavePolling() returns (left: nat)
      requires Valid() && PollersOf(word) > 0
      modifies this`word
      ensures Valid() && left == word && PollersOf(word) == old(PollersOf(word)) - 1
      ensures ClosedOf(word) == old(ClosedOf(word))
    {
      LeaveWord(word);
      word := word - ONE_POLLER;
      left := word;
    }

    method SetClosed() returns (first: bool)
      requires Valid()
      modifies this`word
      ensures Valid() && ClosedOf(word) && first == !old(ClosedOf(word))
      ensures PollersOf(word) == old(PollersOf(word))
    {
      first := !ClosedOf(word);
      if first {
        CloseWord(word);
        word := word + CLOSED_FLAG;
      }
    }

    /** Removes `caller` wherever it is in the list; the others keep their order. */
    method Unlink(caller: Waiter, ghost k: nat)
      requires Linked() && k < |list| && list[k] == caller
      modifies this`oldest, this`newest, this`list, list
      ensures Linked() && list == old(list)[..k] + old(list)[k + 1..]
      ensures Unlisted(caller) && !caller.token
    {
      assert InPlace(list, k);
      assert k > 0 ==> InPlace(list, k - 1);
      assert k + 1 < |list| ==> InPlace(list, k + 1);
      if caller.prev == null {
        oldest := caller.next;
      } else {
        caller.prev.next := caller.next;
      }
      if caller.next == null {
        newest := caller.prev;
      } else {
        caller.next.prev := caller.prev;
      }
      caller.prev := null;
      caller.next := null;
      caller.listed := false;
      ghost var was := list;
      list := list[..k] + list[k + 1..];
      RemovedDistinct(was, k);
      forall i | 0 <= i < |list| ensures InPlace(list, i) {
        var j := if i < k then i else i + 1;
        assert old(InPlace(list, j));
        RemovedAt(was, k, i);
        Apart(was, j, k);
        if k > 0 {
          Apart(was, j, k - 1);
        }
        if k + 1 < |was| {
          Apart(was, j, k + 1);
        }
        hide Distinct;
      }
      RemovedEnds(was, k);
    }

    method RemoveForWake() returns (woken: Waiter)
      requires Linked() && list != []
      modifies this`oldest, this`newest, this`list, list
      ensures Linked() && woken == old(list)[0] && list == old(list)[1..]
      ensures Unlisted(woken) && !woken.token
    {
      woken := oldest;
      Unlink(woken, 0);
      assert list == old(list)[1..];
    }

    /** Moves the caller, a registered poller, from the pollers to the list, at either end. The list is right
        whatever the count; the word is, exactly if the parked count has room, and past its limit the count
        carries into the closed flag. */
    method Enlist(caller: Waiter, atOldest: bool) returns (closed: bool)
      requires Valid() && Unlisted(caller) && !caller.token && caller !in list && PollersOf(word) > 0
      modifies this, caller, list
      ensures Linked() && closed == old(ClosedOf(word))
      ensures closed ==> list == old(list) && word == old(word) && Unlisted(caller)
      ensures !closed ==> list == if atOldest then [caller] + old(list) else old(list) + [caller]
      ensures Valid() <==> closed || old(ParkedOf(word)) < COUNT_LIMIT - 1
      ensures !closed && Valid() ==> !ClosedOf(word) && PollersOf(word) == old(PollersOf(word)) - 1
      ensures !Valid() ==> ParkedOf(word) == 0 && ClosedOf(word)
    {
      closed := ClosedOf(word);
      if closed {
        return;
      }
      if ParkedOf(word) < COUNT_LIMIT - 1 {
        TransferWord(word, -1);
      } else {
        ParkOverflow(word);
      }
      word := word - ONE_POLLER + ONE_PARKED;
      Link(caller, atOldest);
    }

    method Link(caller: Waiter, atOldest: bool)
      requires Linked() && Unlisted(caller) && !caller.token && caller !in list
      modifies this`oldest, this`newest, this`list, caller, list
      ensures Linked() && list == if atOldest then [caller] + old(list) else old(list) + [caller]
    {
      assert list != [] ==> InPlace(list, 0) && InPlace(list, |list| - 1);
      if atOldest {
        caller.next := oldest;
        if oldest == null {
          newest := caller;
        } else {
          oldest.prev := caller;
        }
        oldest := caller;
        list := [caller] + list;
      } else {
        caller.prev := newest;
        if newest == null {
          oldest := caller;
        } else {
          newest.next := caller;
        }
        newest := caller;
        list := list + [caller];
      }
      caller.listed := true;
      ghost var was := old(list);
      forall i | 0 <= i < |list| && list[i] != caller ensures InPlace(list, i) {
        var j := if atOldest then i - 1 else i;
        assert list[i] == was[j] && old(InPlace(list, j));
        Apart(was, j, 0);
        Apart(was, j, |was| - 1);
        hide Distinct;
      }
    }

    /** Wakes the oldest waiters, as many as bring the pollers up to the target and no more: one
        change of the counts, then one unlink and one token each. */
    method WakeGroup(target: nat) returns (woke: bool)
      requires Valid() && target < COUNT_LIMIT
      modifies this, list
      ensures Valid() && ClosedOf(word) == old(ClosedOf(word))
      ensures woke == (old(list) != [] && old(PollersOf(word)) < target)
      ensures
        var room := target - old(PollersOf(word));
        var k := if room <= 0 then 0 else if |old(list)| <= room then |old(list)| else room;
        && list == old(list)[k..]
        && PollersOf(word) == old(PollersOf(word)) + k
        && (forall w | w in old(list)[..k] :: Unlisted(w) && w.token)
    {
      if ParkedOf(word) == 0 || PollersOf(word) >= target {
        woke := false;
        return;
      }
      var count := if ParkedOf(word) <= target - PollersOf(word) then ParkedOf(word) else target - PollersOf(word);
      TransferWord(word, count);
      word := word + count - count * ONE_PARKED;
      SendTokens(count);
      woke := true;
    }

    method SendTokens(count: nat)
      requires Linked() && count <= |list|
      modifies this`oldest, this`newest, this`list, list
      ensures Linked() && list == old(list)[count..]
      ensures forall w | w in old(list)[..count] :: Unlisted(w) && w.token
    {
      var sent := 0;
      while sent < count
        invariant sent <= count <= |old(list)|
        invariant Linked() && list == old(list)[sent..]
        invariant forall i | 0 <= i < sent :: Unlisted(old(list)[i]) && old(list)[i].token
      {
        var woken := RemoveForWake();
        woken.token := true;
        sent := sent + 1;
      }
    }

    /** Wakes the oldest waiter when no poller is registered. */
    method WakeOne() returns (woke: bool)
      requires Valid()
      modifies this, list
      ensures Valid() && ClosedOf(word) == old(ClosedOf(word))
      ensures woke == old(NeedsWake(word))
      ensures woke ==>
        && list == old(list)[1..] && PollersOf(word) == 1
        && Unlisted(old(list)[0]) && old(list)[0].token
      ensures !woke ==> list == old(list) && word == old(word)
    {
      woke := NeedsWake(word);
      if woke {
        TransferWord(word, 1);
        word := word + ONE_POLLER - ONE_PARKED;
        var woken := RemoveForWake();
        woken.token := true;
      }
    }

    /** The exit of a parked caller for a reason other than a token. A caller already selected takes
        its token and drops the registration its waker made for it; a caller still listed leaves the
        list. `cleanup` tells whether the word returned must still be acted on. */
    method LeaveList(caller: Waiter, moved: bool) returns (cleanup: bool, left: nat)
      requires Valid() && (caller.listed <==> caller in list)
      requires !caller.listed ==> Unlisted(caller) && caller.token && PollersOf(word) > 0
      modifies this, caller, list
      ensures Valid() && left == word && ClosedOf(word) == old(ClosedOf(word))
      ensures Unlisted(caller) && !caller.token && caller !in list
      ensures old(caller.listed) ==>
        && PollersOf(word) == old(PollersOf(word)) && cleanup == moved
        && exists k :: 0 <= k < |old(list)| && old(list)[k] == caller && list == old(list)[..k] + old(list)[k + 1..]
      ensures !old(caller.listed) ==>
        PollersOf(word) == old(PollersOf(word)) - 1 && list == old(list) && cleanup
    {
      if !caller.listed {
        caller.token := false;
        left := LeavePolling();
        cleanup := true;
      } else {
        ghost var k :| 0 <= k < |list| && list[k] == caller;
        left := LeaveAt(caller, k);
        cleanup := moved;
      }
    }

    method LeaveAt(caller: Waiter, ghost k: nat) returns (left: nat)
      requires Valid() && k < |list| && list[k] == caller
      modifies this, list
      ensures Valid() && left == word && ClosedOf(word) == old(ClosedOf(word)) && PollersOf(word) == old(PollersOf(word))
      ensures list == old(list)[..k] + old(list)[k + 1..]
      ensures Unlisted(caller) && !caller.token && caller !in list
    {
      hide PollersOf, ParkedOf, ClosedOf, Packed;
      Unlink(caller, k);
      UnparkWord(word);
      word := word - ONE_PARKED;
      left := word;
      assert forall i | 0 <= i < |old(list)| && i != k :: old(list)[i] != caller;
    }
  }
}
