/** Delivery claims: how many bytes they hold on to, which are waiting in the delivery queue, and which a
    receiver has acquired. Each method is one critical section of the queue's mutex. Only the coordinator
    loads and clears claims; receivers only acquire them. */
module DurableDelivery {
  import opened DurableBudget

  /** `attempt` is what the token of the delivery carries beside the identity. */
  datatype Claim = Claim(used: bool, acquired: bool, id: nat, attempt: nat, charge: nat)

  const NO_CLAIM := Claim(false, false, 0, 0, 0)

  /** What a receiver is given. */
  datatype Delivered = Delivered(id: nat, attempt: nat)

  function DeliveryCharge(payload: nat, codec: nat): nat {
    Allowance(payload) + Allowance(codec) + 256
  }

  /** A delivery's charge covers its bytes twice over, so what is claimed at once fits the budget. */
  lemma DeliveryCovers(payload: nat, codec: nat)
    ensures DeliveryCharge(payload, codec) >= 2 * (payload + codec) + 256
  {
    AllowanceMonotone(payload, payload);
    AllowanceMonotone(codec, codec);
    hide Allowance;
  }

  function Charged(claims: seq<Claim>): nat {
    if claims == [] then 0
    else Charged(claims[..|claims| - 1]) + if claims[|claims| - 1].used then claims[|claims| - 1].charge else 0
  }

  lemma {:induction false} ChargedUpdate(claims: seq<Claim>, i: nat, c: Claim)
    requires i < |claims|
    ensures Charged(claims[i := c]) + (if claims[i].used then claims[i].charge else 0)
         == Charged(claims) + (if c.used then c.charge else 0)
    ensures claims[i].used ==> claims[i].charge <= Charged(claims)
  {
    var n := |claims| - 1;
    if i == n {
      assert claims[i := c][..n] == claims[..n];
    } else {
      ChargedUpdate(claims[..n], i, c);
      assert claims[i := c][..n] == claims[..n][i := c];
    }
  }

  lemma {:induction false} NothingCharged(claims: seq<Claim>)
    requires forall i | 0 <= i < |claims| :: !claims[i].used
    ensures Charged(claims) == 0
  {
    if claims != [] {
      NothingCharged(claims[..|claims| - 1]);
    }
  }

  // ---------------------------------------------------------------------------------------
  // Invariants

  /** No identity has two claims, and no two claims have the same attempt. */
  ghost predicate Distinct(claims: seq<Claim>, lastAttempt: nat) {
    && (forall i | 0 <= i < |claims| && claims[i].used :: 0 < claims[i].attempt <= lastAttempt)
    && (forall i, j | 0 <= i < j < |claims| && claims[i].used && claims[j].used ::
          claims[i].id != claims[j].id && claims[i].attempt != claims[j].attempt)
  }

  /** The queue holds, once each, exactly the claims that nobody has acquired and that are not being read. */
  ghost predicate Queued(claims: seq<Claim>, queue: seq<nat>, reading: int) {
    && (forall k, l | 0 <= k < l < |queue| :: queue[k] != queue[l])
    && (forall i | i in queue :: i < |claims|)
    && (forall i | 0 <= i < |claims| :: i in queue <==> claims[i].used && !claims[i].acquired && i != reading)
  }

  function Elements(queue: seq<nat>): set<nat> {
    if queue == [] then {} else Elements(queue[..|queue| - 1]) + {queue[|queue| - 1]}
  }

  function Indices(n: nat): (r: set<nat>)
    ensures |r| == n && forall i :: i in r <==> 0 <= i < n
  {
    if n == 0 then {} else Indices(n - 1) + {n - 1}
  }

  lemma {:induction false} ElementsAre(queue: seq<nat>, i: nat)
    ensures i in Elements(queue) <==> i in queue
  {
    if queue != [] {
      var front, last := queue[..|queue| - 1], queue[|queue| - 1];
      ElementsAre(front, i);
      assert queue == front + [last];
      hide Elements;
    }
  }

  lemma {:induction false} ElementsCount(queue: seq<nat>)
    requires forall k, l | 0 <= k < l < |queue| :: queue[k] != queue[l]
    ensures |Elements(queue)| == |queue|
  {
    if queue != [] {
      var front, last := queue[..|queue| - 1], queue[|queue| - 1];
      ElementsCount(front);
      ElementsAre(front, last);
      assert last !in front;
    }
  }

  lemma {:induction false} AtMost(a: set<nat>, b: set<nat>)
    requires a <= b
    ensures |a| <= |b|
  {
    if a != {} {
      var x :| x in a;
      AtMost(a - {x}, b - {x});
    }
  }

  /** A queue of different indices below `n` that leaves one out has room for it. */
  lemma RoomFor(queue: seq<nat>, n: nat, index: nat)
    requires index < n && index !in queue && (forall i | i in queue :: i < n)
    requires forall k, l | 0 <= k < l < |queue| :: queue[k] != queue[l]
    ensures |queue| < n
  {
    ElementsCount(queue);
    forall i | i in Elements(queue) ensures i in Indices(n) - {index} {
      ElementsAre(queue, i);
    }
    AtMost(Elements(queue), Indices(n) - {index});
  }

  /** A token is current: its identity is claimed, acquired and on that attempt. */
  ghost predicate Current(claims: seq<Claim>, id: nat, attempt: nat) {
    exists i :: 0 <= i < |claims| && claims[i].used && claims[i].acquired && claims[i].id == id && claims[i].attempt == attempt
  }

  /** Exactly the claims that one of the tokens is current for are given up. */
  ghost predicate Freed(was: seq<Claim>, now: seq<Claim>, tokens: seq<Delivered>) {
    && |now| == |was|
    && forall i | 0 <= i < |was| ::
         now[i] == if was[i].used && was[i].acquired && DeliveredOf(was[i]) in tokens then NO_CLAIM else was[i]
  }

  lemma FreesClaim(claims: seq<Claim>, lastAttempt: nat, index: nat)
    requires Distinct(claims, lastAttempt) && index < |claims| && claims[index].used && claims[index].acquired
    ensures Freed(claims, claims[index := NO_CLAIM], [DeliveredOf(claims[index])])
  {
  }

  lemma FreesNothing(claims: seq<Claim>, id: nat, attempt: nat)
    requires !Current(claims, id, attempt)
    ensures Freed(claims, claims, [Delivered(id, attempt)])
  {
  }

  lemma FreedOn(a: seq<Claim>, b: seq<Claim>, c: seq<Claim>, tokens: seq<Delivered>, token: Delivered)
    requires Freed(a, b, tokens) && Freed(b, c, [token])
    ensures Freed(a, c, tokens + [token])
  {
  }

  /** No token is current after its claim is given up. */
  lemma FreedStale(was: seq<Claim>, now: seq<Claim>, tokens: seq<Delivered>, k: nat)
    requires Freed(was, now, tokens) && k < |tokens|
    ensures !Current(now, tokens[k].id, tokens[k].attempt)
  {
  }

  lemma QueuedNot(claims: seq<Claim>, queue: seq<nat>, reading: int, index: nat)
    requires Queued(claims, queue, reading) && index < |claims| && claims[index].acquired
    ensures index !in queue
  {
  }

  datatype Started = Corrupt | NotNow | AttemptsOver | StartedAt(attempt: nat)

  class Deliveries {
    const config: Config
    const claims: array<Claim>
    var retained: nat
    var lastAttempt: nat
    var queue: seq<nat>
    var stopped: bool
    var closed: bool
    /** The claim whose delivery the coordinator is reading, or -1. */
    ghost var reading: int

    constructor (config: Config)
      requires Accepted(config)
      ensures Valid() && reading == -1 && retained == 0 && queue == [] && !stopped && fresh(claims)
      ensures this.config == config && forall i | 0 <= i < claims.Length :: claims[i] == NO_CLAIM
    {
      this.config := config;
      claims := new Claim[config.deliveryItems](_ => NO_CLAIM);
      retained, lastAttempt, queue, stopped, closed, reading := 0, 0, [], false, false, -1;
      new;
      NothingCharged(claims[..]);
    }

    /** What is retained is what the claims are charged, and within the budget: the unsigned difference
        that decides whether another claim fits never wraps. */
    ghost predicate Valid()
      reads this, claims
    {
      && Accepted(config) && claims.Length == config.deliveryItems
      && retained == Charged(claims[..]) <= config.deliveryRetained
      && Distinct(claims[..], lastAttempt) && Queued(claims[..], queue, reading)
      && lastAttempt <= MAX_U64
      && (closed ==> stopped && queue == [])
    }

    /** The claim of an identity, if it has one. */
    method ClaimOf(id: nat) returns (found: bool, index: nat)
      requires Valid()
      ensures found ==> index < claims.Length && claims[index].used && claims[index].id == id
      ensures !found ==> forall i | 0 <= i < claims.Length && claims[i].used :: claims[i].id != id
    {
      hide *;
      for i := 0 to claims.Length
        invariant forall k | 0 <= k < i && claims[k].used :: claims[k].id != id
      {
        if claims[i].used && claims[i].id == id {
          return true, i;
        }
      }
      return false, 0;
    }

    /** The claim a token is current for. */
    method CurrentClaim(id: nat, attempt: nat) returns (current: bool, index: nat)
      requires Valid()
      ensures current <==> Current(claims[..], id, attempt)
      ensures current ==>
        && index < claims.Length && claims[index].used && claims[index].acquired
        && claims[index].id == id && claims[index].attempt == attempt
    {
      var found;
      found, index := ClaimOf(id);
      current := found && claims[index].acquired && claims[index].attempt == attempt;
      hide Accepted, Queued, Charged;
      assert forall i | 0 <= i < claims.Length :: claims[..][i] == claims[i];
    }

    /** Gives up a claim that is not in the queue. The subtraction never goes below zero. */
    method ClearClaim(index: nat)
      requires Valid() && index < claims.Length && index !in queue
      modifies this`retained, this`reading, claims
      ensures Valid() && reading == (if old(reading) == index then -1 else old(reading))
      ensures claims[..] == old(claims[..])[index := NO_CLAIM]
      ensures retained == old(retained) - (if old(claims[index].used) then old(claims[index].charge) else 0)
    {
      hide Accepted, Charged, Distinct, Queued;
      ghost var was := claims[..];
      ChargedUpdate(was, index, NO_CLAIM);
      ClearedKeeps(was, lastAttempt, queue, reading, index);
      if claims[index].used {
        retained := retained - claims[index].charge;
      }
      claims[index] := NO_CLAIM;
      if reading == index {
        reading := -1;
      }
      assert claims[..] == was[index := NO_CLAIM];
    }

    /** The first free claim slot. */
    method FreeSlot() returns (found: bool, index: nat)
      requires Valid()
      ensures found ==> index < claims.Length && !claims[index].used
      ensures !found ==> forall i | 0 <= i < claims.Length :: claims[i].used
    {
      hide *;
      for i := 0 to claims.Length
        invariant forall k | 0 <= k < i :: claims[k].used
      {
        if !claims[i].used {
          return true, i;
        }
      }
      return false, 0;
    }

    /** The coordinator claims an identity whose stored sizes it has read: a new attempt if its charge fits
        what is left of the budget. Without other claims a legal entry always fits. */
    method StartReading(index: nat, id: nat, payload: nat, codec: nat) returns (r: Started)
      requires Valid() && reading == -1 && index < claims.Length && !claims[index].used
      requires forall i | 0 <= i < claims.Length && claims[i].used :: claims[i].id != id
      modifies this`retained, this`lastAttempt, this`reading, claims
      ensures Valid()
      ensures r.Corrupt? <==> payload > config.maxPayload || codec > config.maxCodec
      ensures r.NotNow? <==>
        !r.Corrupt? && (stopped || old(retained) + DeliveryCharge(payload, codec) > config.deliveryRetained)
      ensures r.AttemptsOver? <==> !r.Corrupt? && !r.NotNow? && old(lastAttempt) == MAX_U64
      ensures r.StartedAt? ==>
        && r.attempt == lastAttempt == old(lastAttempt) + 1 && reading == index
        && claims[..] == old(claims[..])[index := Claim(true, false, id, lastAttempt, DeliveryCharge(payload, codec))]
        && retained == old(retained) + DeliveryCharge(payload, codec)
      ensures !r.StartedAt? ==>
        claims[..] == old(claims[..]) && retained == old(retained) && lastAttempt == old(lastAttempt) && reading == -1
      ensures !r.Corrupt? && !stopped && old(retained) == 0 && old(lastAttempt) < MAX_U64 ==> r.StartedAt?
    {
      hide Accepted, Allowance, Charged, Distinct, Queued;
      if payload <= config.maxPayload && codec <= config.maxCodec {
        DeliveryFits(config, payload, codec);
      }
      if payload > config.maxPayload || codec > config.maxCodec || DeliveryScratch(payload, codec) > config.readScratch {
        return Corrupt;
      }
      var charge := DeliveryCharge(payload, codec);
      if stopped || charge > config.deliveryRetained - retained {
        return NotNow;
      }
      if lastAttempt == MAX_U64 {
        return AttemptsOver;
      }
      ghost var was := claims[..];
      var c := Claim(true, false, id, lastAttempt + 1, charge);
      ChargedUpdate(was, index, c);
      StartedKeeps(was, lastAttempt, queue, index, c);
      lastAttempt, retained, reading := lastAttempt + 1, retained + charge, index;
      claims[index] := c;
      assert claims[..] == was[index := c];
      return StartedAt(lastAttempt);
    }

    /** The read has ended: the claim joins the delivery queue, which always has room for it, or is given
        up if the read failed or delivery has stopped. */
    method EndReading(index: nat, failed: bool) returns (queued: bool)
      requires Valid() && 0 <= reading == index < claims.Length && claims[index].used && !claims[index].acquired
      modifies this`retained, this`reading, this`queue, claims
      ensures Valid() && reading == -1 && queued == (!failed && !stopped)
      ensures queued ==> |old(queue)| < claims.Length && queue == old(queue) + [index]
      ensures queued ==> claims[..] == old(claims[..]) && retained == old(retained)
      ensures !queued ==> queue == old(queue) && claims[..] == old(claims[..])[index := NO_CLAIM]
    {
      hide Accepted, Charged;
      RoomFor(queue, claims.Length, index);
      queued := !failed && !stopped;
      if queued {
        QueuedPush(claims[..], queue, index);
        queue, reading := queue + [index], -1;
      } else {
        ClearClaim(index);
      }
    }

    /** A receiver acquires up to `limit` deliveries in queue order. */
    method Receive(limit: nat) returns (deliveries: seq<Delivered>)
      requires Valid() && !stopped
      modifies this`queue, claims
      ensures Valid() && retained == old(retained)
      ensures |deliveries| == Min(limit, |old(queue)|) && queue == old(queue)[|deliveries|..]
      ensures deliveries == Handed(old(claims[..]), old(queue)[..|deliveries|])
      ensures claims[..] == Acquired(old(claims[..]), old(queue)[..|deliveries|])
    {
      hide Handed, Acquired, Accepted, Charged, Distinct, Queued;
      ghost var was, all, taken := claims[..], queue, [];
      deliveries := [];
      NoneHanded(was);
      while |deliveries| < limit && queue != []
        invariant Valid() && retained == old(retained) && !stopped
        invariant |taken| == |deliveries| <= limit && taken + queue == all
        invariant deliveries == Handed(was, taken) && claims[..] == Acquired(was, taken)
        decreases |queue|
      {
        ghost var index := queue[0];
        HandedNext(was, all, taken, reading);
        var d := Acquire();
        taken, deliveries := taken + [index], deliveries + [d];
      }
      assert taken == all[..|deliveries|] && queue == all[|deliveries|..];
    }

    /** Takes the first claim off the queue. */
    method Acquire() returns (d: Delivered)
      requires Valid() && queue != []
      modifies this`queue, claims
      ensures Valid() && retained == old(retained) && queue == old(queue)[1..] && old(queue)[0] < claims.Length
      ensures d == DeliveredOf(old(claims[..])[old(queue)[0]])
      ensures claims[..] == old(claims[..])[old(queue)[0] := old(claims[..])[old(queue)[0]].(acquired := true)]
    {
      hide Accepted, Charged;
      ghost var was := claims[..];
      QueuedPop(was, queue, reading);
      var index := queue[0];
      var c := claims[index].(acquired := true);
      ChargedUpdate(was, index, c);
      AcquiredKeeps(was, lastAttempt, index);
      hide Queued, Distinct;
      queue := queue[1..];
      claims[index] := c;
      assert claims[..] == was[index := c];
      d := DeliveredOf(c);
    }

    /** A token releases its claim if it is current, and is stale otherwise. Acknowledging does the same
        once the acknowledgement has committed. */
    method Release(id: nat, attempt: nat) returns (released: bool)
      requires Valid()
      modifies this`retained, this`reading, claims
      ensures Valid() && (old(reading) == -1 ==> reading == -1)
      ensures released <==> Current(old(claims[..]), id, attempt)
      ensures Freed(old(claims[..]), claims[..], [Delivered(id, attempt)]) && !Current(claims[..], id, attempt)
      ensures !released ==> claims[..] == old(claims[..]) && retained == old(retained)
    {
      hide Accepted, Charged;
      var index;
      released, index := CurrentClaim(id, attempt);
      ghost var was := claims[..];
      if released {
        FreesClaim(was, lastAttempt, index);
        QueuedNot(was, queue, reading, index);
        hide Queued, Distinct, Current, Freed;
        ClearClaim(index);
      } else {
        FreesNothing(was, id, attempt);
      }
      FreedStale(was, claims[..], [Delivered(id, attempt)], 0);
    }

    /** Gives up the claims of all tokens that are current, one after the other. */
    method ReleaseAll(tokens: seq<Delivered>)
      requires Valid()
      modifies this`retained, this`reading, claims
      ensures Valid() && (old(reading) == -1 ==> reading == -1)
      ensures Freed(old(claims[..]), claims[..], tokens)
      ensures forall k | 0 <= k < |tokens| :: !Current(claims[..], tokens[k].id, tokens[k].attempt)
    {
      hide Valid, Current;
      for n := 0 to |tokens|
        invariant Valid() && (old(reading) == -1 ==> reading == -1)
        invariant Freed(old(claims[..]), claims[..], tokens[..n])
      {
        ghost var was := claims[..];
        var released := Release(tokens[n].id, tokens[n].attempt);
        FreedOn(old(claims[..]), was, claims[..], tokens[..n], tokens[n]);
        assert tokens[..n] + [tokens[n]] == tokens[..n + 1];
      }
      assert tokens[..|tokens|] == tokens;
      forall k | 0 <= k < |tokens| ensures !Current(claims[..], tokens[k].id, tokens[k].attempt) {
        FreedStale(old(claims[..]), claims[..], tokens, k);
      }
    }

    /** Stops acquisition; what is acquired stays. */
    method Stop()
      requires Valid()
      modifies this`stopped
      ensures Valid() && stopped
    {
      stopped := true;
    }

    /** Closes the delivery queue and gives up every claim that was still waiting in it. */
    method CloseQueue()
      requires Valid() && stopped && reading == -1
      modifies this`closed, this`queue, this`retained, this`reading, claims
      ensures Valid() && closed && queue == [] && reading == -1
      ensures forall i | 0 <= i < claims.Length ::
        claims[i] == if old(claims[i].used && !claims[i].acquired) then NO_CLAIM else old(claims[i])
    {
      hide Accepted, Charged, Distinct;
      while queue != []
        invariant Valid() && reading == -1 && stopped
        invariant forall i | 0 <= i < claims.Length ::
          claims[i] == if old(claims[i].used && !claims[i].acquired) && i !in queue then NO_CLAIM else old(claims[i])
        decreases |queue|
      {
        DropFirst();
      }
      closed := true;
      assert forall i | 0 <= i < claims.Length :: claims[..][i] == claims[i];
    }

    method DropFirst()
      requires Valid() && queue != [] && reading == -1
      modifies this`queue, this`retained, this`reading, claims
      ensures Valid() && reading == -1 && queue == old(queue)[1..] && old(queue)[0] < claims.Length
      ensures old(queue)[0] !in queue && forall i | i in old(queue) :: i == old(queue)[0] || i in queue
      ensures forall i | 0 <= i < claims.Length :: claims[i] == if i == old(queue)[0] then NO_CLAIM else old(claims[i])
    {
      hide Accepted, Charged;
      var index := queue[0];
      ghost var was := claims[..];
      QueuedPop(claims[..], queue, -1);
      // The claim taken off the queue is the one being handled.
      queue, reading := queue[1..], index;
      ClearClaim(index);
      assert forall i | 0 <= i < claims.Length :: claims[i] == if i == index then NO_CLAIM else was[i];
    }
  }

  function DeliveredOf(c: Claim): Delivered {
    Delivered(c.id, c.attempt)
  }

  /** What a receiver gets for some claims. */
  function Handed(claims: seq<Claim>, indices: seq<nat>): seq<Delivered> {
    if indices == [] then []
    else
      var i := indices[|indices| - 1];
      Handed(claims, indices[..|indices| - 1]) + [DeliveredOf(if i < |claims| then claims[i] else NO_CLAIM)]
  }

  /** The claims after some of them are acquired. */
  function Acquired(claims: seq<Claim>, indices: seq<nat>): (after: seq<Claim>)
    ensures |after| == |claims|
  {
    if indices == [] then claims
    else
      var before, i := Acquired(claims, indices[..|indices| - 1]), indices[|indices| - 1];
      if i < |claims| then before[i := before[i].(acquired := true)] else before
  }

  lemma NoneHanded(claims: seq<Claim>)
    ensures Handed(claims, []) == [] && Acquired(claims, []) == claims
  {
  }

  /** What the acquired claims are after some of them are acquired. */
  lemma {:induction false} AcquiredAt(claims: seq<Claim>, indices: seq<nat>, i: nat)
    requires i < |claims|
    ensures Acquired(claims, indices)[i] == if i in indices then claims[i].(acquired := true) else claims[i]
  {
    if indices != [] {
      var front, last := indices[..|indices| - 1], indices[|indices| - 1];
      AcquiredAt(claims, front, i);
      assert indices == front + [last];
    }
  }

  lemma HandedPush(claims: seq<Claim>, taken: seq<nat>, index: nat)
    requires index < |claims|
    ensures Handed(claims, taken + [index]) == Handed(claims, taken) + [DeliveredOf(claims[index])]
    ensures Acquired(claims, taken + [index]) ==
              Acquired(claims, taken)[index := Acquired(claims, taken)[index].(acquired := true)]
  {
    assert (taken + [index])[..|taken|] == taken;
  }

  lemma NotTaken(all: seq<nat>, taken: seq<nat>)
    requires forall k, l | 0 <= k < l < |all| :: all[k] != all[l]
    requires |taken| < |all| && taken == all[..|taken|]
    ensures all[|taken|] in all && all[|taken|] !in taken
  {
  }

  lemma HandedNext(claims: seq<Claim>, all: seq<nat>, taken: seq<nat>, reading: int)
    requires Queued(claims, all, reading) && |taken| < |all| && taken == all[..|taken|]
    ensures
      var index := all[|taken|];
      && index < |claims| && Acquired(claims, taken)[index] == claims[index]
      && Handed(claims, taken + [index]) == Handed(claims, taken) + [DeliveredOf(claims[index])]
      && Acquired(claims, taken + [index]) == Acquired(claims, taken)[index := claims[index].(acquired := true)]
  {
    hide Acquired, Handed;
    var index := all[|taken|];
    NotTaken(all, taken);
    AcquiredAt(claims, taken, index);
    HandedPush(claims, taken, index);
  }

  /** Acquisition changes neither which claims are used nor a claim that is being read. */
  lemma AcquiredSame(claims: seq<Claim>, queue: seq<nat>, reading: int, n: nat)
    requires Queued(claims, queue, reading) && n <= |queue|
    ensures forall i | 0 <= i < |claims| ::
      Acquired(claims, queue[..n])[i] == claims[i].(acquired := Acquired(claims, queue[..n])[i].acquired)
    ensures 0 <= reading < |claims| ==> Acquired(claims, queue[..n])[reading] == claims[reading]
  {
    forall i | 0 <= i < |claims|
      ensures Acquired(claims, queue[..n])[i] == claims[i].(acquired := Acquired(claims, queue[..n])[i].acquired)
    {
      AcquiredAt(claims, queue[..n], i);
    }
    if 0 <= reading < |claims| {
      assert reading !in queue;
      AcquiredAt(claims, queue[..n], reading);
    }
  }

  /** Acquisition is exclusive: the deliveries a receiver gets are of different claims, all used and acquired
      by nobody before, and nobody gets them again from the queue that is left. */
  lemma AcquiredOnce(claims: seq<Claim>, lastAttempt: nat, queue: seq<nat>, reading: int, n: nat)
    requires Distinct(claims, lastAttempt) && Queued(claims, queue, reading) && n <= |queue|
    ensures |Handed(claims, queue[..n])| == n
    ensures forall k | 0 <= k < n ::
      queue[k] < |claims| && claims[queue[k]].used && !claims[queue[k]].acquired && queue[k] !in queue[n..]
      && Handed(claims, queue[..n])[k] == DeliveredOf(claims[queue[k]])
    ensures forall k, l | 0 <= k < l < n :: Handed(claims, queue[..n])[k].id != Handed(claims, queue[..n])[l].id
    ensures forall i | 0 <= i < |claims| && claims[i].acquired :: Acquired(claims, queue[..n])[i] == claims[i]
  {
    HandedAt(claims, queue[..n]);
    forall k | 0 <= k < n ensures
      queue[k] < |claims| && claims[queue[k]].used && !claims[queue[k]].acquired && queue[k] !in queue[n..]
      && Handed(claims, queue[..n])[k] == DeliveredOf(claims[queue[k]])
    {
      assert queue[k] in queue && queue[..n][k] == queue[k];
    }
    forall k, l | 0 <= k < l < n ensures Handed(claims, queue[..n])[k].id != Handed(claims, queue[..n])[l].id {
      assert queue[k] != queue[l];
    }
    forall i | 0 <= i < |claims| && claims[i].acquired ensures Acquired(claims, queue[..n])[i] == claims[i] {
      AcquiredAt(claims, queue[..n], i);
    }
  }

  lemma {:induction false} HandedAt(claims: seq<Claim>, indices: seq<nat>)
    ensures |Handed(claims, indices)| == |indices|
    ensures forall k | 0 <= k < |indices| && indices[k] < |claims| ::
      Handed(claims, indices)[k] == DeliveredOf(claims[indices[k]])
  {
    if indices != [] {
      HandedAt(claims, indices[..|indices| - 1]);
    }
  }

  lemma StartedKeeps(claims: seq<Claim>, lastAttempt: nat, queue: seq<nat>, index: nat, c: Claim)
    requires Distinct(claims, lastAttempt) && Queued(claims, queue, -1) && index < |claims| && !claims[index].used
    requires c.used && !c.acquired && c.attempt == lastAttempt + 1
    requires forall i | 0 <= i < |claims| && claims[i].used :: claims[i].id != c.id
    ensures Distinct(claims[index := c], lastAttempt + 1) && Queued(claims[index := c], queue, index)
  {
  }

  lemma ClearedKeeps(claims: seq<Claim>, lastAttempt: nat, queue: seq<nat>, reading: int, index: nat)
    requires Distinct(claims, lastAttempt) && Queued(claims, queue, reading) && index < |claims| && index !in queue
    ensures Distinct(claims[index := NO_CLAIM], lastAttempt)
    ensures Queued(claims[index := NO_CLAIM], queue, if reading == index then -1 else reading)
  {
  }

  lemma AcquiredKeeps(claims: seq<Claim>, lastAttempt: nat, index: nat)
    requires Distinct(claims, lastAttempt) && index < |claims|
    ensures Distinct(claims[index := claims[index].(acquired := true)], lastAttempt)
  {
  }

  lemma QueuedPush(claims: seq<Claim>, queue: seq<nat>, index: nat)
    requires Queued(claims, queue, index) && index < |claims| && claims[index].used && !claims[index].acquired
    ensures Queued(claims, queue + [index], -1)
  {
    assert index !in queue;
  }

  lemma QueuedPop(claims: seq<Claim>, queue: seq<nat>, reading: int)
    requires Queued(claims, queue, reading) && queue != []
    ensures queue[0] < |claims| && claims[queue[0]].used && !claims[queue[0]].acquired && queue[0] !in queue[1..]
    ensures Queued(claims[queue[0] := claims[queue[0]].(acquired := true)], queue[1..], reading)
    ensures reading == -1 ==> Queued(claims, queue[1..], queue[0])
  {
    var first, rest := queue[0], queue[1..];
    assert queue == [first] + rest;
    assert forall i :: i in queue <==> i == first || i in rest;
    assert first in queue && first !in rest;
    assert forall k, l | 0 <= k < l < |rest| :: rest[k] == queue[k + 1] && rest[l] == queue[l + 1];
  }
}
