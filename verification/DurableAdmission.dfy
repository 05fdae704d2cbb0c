/** Admission: byte-budgeted pools of command slots, and the one order in which commands are handed over,
    selected, grouped and finished. Each method is one critical section of the queue's mutex, or the
    filling of a slot by the caller that owns it. */
module DurableAdmission {
  import opened DurableBudget

  // ---------------------------------------------------------------------------------------
  // Commands

  /** What a command is to do, as far as admission cares. */
  datatype Work = Submit(entries: seq<Sizes>) | Lookup(ids: nat) | Acknowledge(tokens: nat) | Release | Retire

  predicate Mutates(w: Work) {
    w.Submit? || w.Acknowledge? || w.Retire?
  }

  /** Submissions and lookups go to the ordinary pool, the rest to the pool kept for progress. */
  predicate Ordinary(w: Work) {
    w.Submit? || w.Lookup?
  }

  function OperationsOf(w: Work): nat {
    match w case Submit(entries) => |entries| case Acknowledge(tokens) => tokens case _ => 1
  }

  function EncodedOf(w: Work): nat {
    match w case Submit(entries) => EncodedSum(entries) case Acknowledge(tokens) => 56 * tokens case _ => 24
  }

  /** What the caller reserves for the command. */
  function ChargeOf(w: Work): nat {
    match w
    case Submit(entries) => SubmitTotal(|entries|, PayloadSum(entries), CodecSum(entries), LargestCodec(entries))
    case Lookup(ids) => LookupTotal(ids)
    case Acknowledge(tokens) => 256 + 128 * tokens
    case _ => 384
  }

  /** The bytes a command keeps for its caller: entries with their records, identities with their statuses, tokens. */
  function Copied(w: Work): nat {
    match w
    case Submit(entries) => BytesOf(entries) + 81 * |entries|
    case Lookup(ids) => (24 + 40) * ids
    case Acknowledge(tokens) => 56 * tokens
    case Release => 56
    case Retire => 24
  }

  /** What is reserved covers what is kept twice over, whatever the command. */
  lemma ChargeCovers(w: Work)
    ensures ChargeOf(w) >= COMMAND_BASE + 2 * Copied(w)
  {
    hide SubmitTotal, LookupTotal;
    match w {
      case Submit(entries) => SubmitCovers(entries);
      case Lookup(ids) => LookupCovers(ids);
      case _ =>
    }
  }

  /** What the checks in front of a reservation let through. */
  predicate Legal(c: Config, w: Work) {
    match w
    case Submit(entries) => LegalBatch(c, entries)
    case Lookup(ids) => ids <= c.lookupItems
    case Acknowledge(tokens) => tokens <= c.ackItems
    case _ => true
  }

  /** With an accepted configuration every legal command fits its pool, and alone fits a group. */
  lemma LegalFits(c: Config, w: Work)
    requires Accepted(c) && Legal(c, w)
    ensures ChargeOf(w) <= if Ordinary(w) then c.ordinaryRetained else c.progressRetained
    ensures OperationsOf(w) <= c.groupOperations && EncodedOf(w) <= c.groupEncoded
  {
    hide Accepted, LegalBatch, SubmitTotal, LookupTotal;
    match w {
      case Submit(entries) => SubmissionFits(c, entries);
      case Lookup(ids) => OthersFit(c, 0, ids);
      case Acknowledge(tokens) => OthersFit(c, tokens, 0);
      case _ => OthersFit(c, 0, 0);
    }
    if !w.Submit? {
      OthersFit(c, 0, 0);
    }
  }

  /** The work of a mutation, added up over its entries in 64 bits. */
  method Measure(c: Config, w: Work) returns (operations: nat, encoded: nat)
    requires Accepted(c) && Legal(c, w)
    ensures operations == OperationsOf(w) && encoded == EncodedOf(w) <= MAX_U64
  {
    LegalFits(c, w);
    if w.Acknowledge? {
      return w.tokens, 56 * w.tokens;
    }
    if !w.Submit? {
      return 1, 24;
    }
    encoded := 0;
    for i := 0 to |w.entries|
      invariant encoded == EncodedSum(w.entries[..i])
    {
      assert w.entries[..i + 1][..i] == w.entries[..i];
      encoded := encoded + ENTRY_BASE + w.entries[i].codec + w.entries[i].payload;
    }
    assert w.entries[..|w.entries|] == w.entries;
    operations := |w.entries|;
  }

  datatype Slot = Slot(
    used: bool,
    handed: bool,
    finished: bool,
    abandoned: bool,
    sequence: nat,
    charge: nat,
    work: Work)

  const FREE := Slot(false, false, false, false, 0, 0, Lookup(0))

  /** A slot that is just reserved. */
  function Blank(charge: nat, submit: bool): Slot {
    FREE.(used := true, charge := charge, work := if submit then Submit([]) else Lookup(0))
  }

  /** A finished command holds on to none of its inputs. */
  function Emptied(w: Work): Work {
    match w
    case Submit(_) => Submit([])
    case Lookup(_) => Lookup(0)
    case Acknowledge(_) => Acknowledge(0)
    case _ => w
  }

  predicate Live(s: Slot) {
    s.used && s.handed && !s.finished
  }

  // ---------------------------------------------------------------------------------------
  // Retained bytes

  function Retained(slots: seq<Slot>): nat {
    if slots == [] then 0
    else Retained(slots[..|slots| - 1]) + if slots[|slots| - 1].used then slots[|slots| - 1].charge else 0
  }

  lemma {:induction false} RetainedUpdate(slots: seq<Slot>, i: nat, s: Slot)
    requires i < |slots|
    ensures Retained(slots[i := s]) + (if slots[i].used then slots[i].charge else 0)
         == Retained(slots) + (if s.used then s.charge else 0)
  {
    var n := |slots| - 1;
    if i == n {
      assert slots[i := s][..n] == slots[..n];
    } else {
      RetainedUpdate(slots[..n], i, s);
      assert slots[i := s][..n] == slots[..n][i := s];
    }
  }

  lemma {:induction false} RetainedAtLeast(slots: seq<Slot>, i: nat)
    requires i < |slots| && slots[i].used
    ensures slots[i].charge <= Retained(slots)
  {
    if i < |slots| - 1 {
      RetainedAtLeast(slots[..|slots| - 1], i);
    }
  }

  // ---------------------------------------------------------------------------------------
  // The handoff order

  /** Every sequence after `executed` up to `last` is carried by exactly one live slot, and no live slot
      carries any other. */
  ghost predicate Ordered(slots: seq<Slot>, executed: nat, last: nat) {
    && executed <= last
    && (forall i | 0 <= i < |slots| && Live(slots[i]) :: executed < slots[i].sequence <= last)
    && (forall i, j | 0 <= i < j < |slots| && Live(slots[i]) && Live(slots[j]) :: slots[i].sequence != slots[j].sequence)
    && (forall k | executed < k <= last :: Carried(slots, k))
  }

  ghost predicate Carried(slots: seq<Slot>, k: nat) {
    exists i :: 0 <= i < |slots| && Live(slots[i]) && slots[i].sequence == k
  }

  lemma HandoffOrdered(slots: seq<Slot>, executed: nat, last: nat, i: nat, s: Slot)
    requires Ordered(slots, executed, last) && i < |slots| && !Live(slots[i])
    requires Live(s) && s.sequence == last + 1
    ensures Ordered(slots[i := s], executed, last + 1)
  {
    var after := slots[i := s];
    forall k | executed < k <= last + 1 ensures Carried(after, k) {
      if k == last + 1 {
        assert Live(after[i]);
      } else {
        assert Carried(slots, k);
        var j :| 0 <= j < |slots| && Live(slots[j]) && slots[j].sequence == k;
        assert after[j] == slots[j];
      }
    }
  }

  lemma FinishOrdered(slots: seq<Slot>, executed: nat, last: nat, i: nat, s: Slot)
    requires Ordered(slots, executed, last) && i < |slots| && Live(slots[i]) && slots[i].sequence == executed + 1
    requires !Live(s)
    ensures Ordered(slots[i := s], executed + 1, last)
  {
    var after := slots[i := s];
    forall k | executed + 1 < k <= last ensures Carried(after, k) {
      assert Carried(slots, k);
      var j :| 0 <= j < |slots| && Live(slots[j]) && slots[j].sequence == k;
      assert after[j] == slots[j];
    }
  }

  lemma IdleOrdered(slots: seq<Slot>, executed: nat, last: nat, i: nat, s: Slot)
    requires Ordered(slots, executed, last) && i < |slots| && !Live(slots[i]) && !Live(s)
    ensures Ordered(slots[i := s], executed, last)
  {
    var after := slots[i := s];
    forall k | executed < k <= last ensures Carried(after, k) {
      assert Carried(slots, k);
      var j :| 0 <= j < |slots| && Live(slots[j]) && slots[j].sequence == k;
      assert after[j] == slots[j];
    }
  }

  lemma SameOrdered(slots: seq<Slot>, executed: nat, last: nat, i: nat, s: Slot)
    requires Ordered(slots, executed, last) && i < |slots| && Live(slots[i]) && Live(s) && s.sequence == slots[i].sequence
    ensures Ordered(slots[i := s], executed, last)
  {
    var after := slots[i := s];
    forall k | executed < k <= last ensures Carried(after, k) {
      assert Carried(slots, k);
      var j :| 0 <= j < |slots| && Live(slots[j]) && slots[j].sequence == k;
      assert Live(after[j]) && after[j].sequence == k;
    }
  }

  /** The index of the live slot with the least sequence past `after`, or none. */
  ghost predicate Selected(slots: seq<Slot>, after: nat, found: bool, index: nat) {
    if found then
      && index < |slots| && Live(slots[index]) && slots[index].sequence > after
      && (forall i | 0 <= i < |slots| && Live(slots[i]) && slots[i].sequence > after ::
            slots[index].sequence <= slots[i].sequence)
    else forall i | 0 <= i < |slots| && Live(slots[i]) :: slots[i].sequence <= after
  }

  /** Selection leaves no gap: the next command after one that was handed over is the very next one. */
  lemma NoGaps(slots: seq<Slot>, executed: nat, last: nat, after: nat, found: bool, index: nat)
    requires Ordered(slots, executed, last) && executed <= after <= last && Selected(slots, after, found, index)
    ensures found <==> after < last
    ensures found ==> slots[index].sequence == after + 1
  {
    if after < last {
      assert Carried(slots, after + 1);
    }
  }

  /** Nothing live comes before the first command not yet executed. */
  lemma AfterNothing(slots: seq<Slot>, executed: nat, last: nat, found: bool, index: nat)
    requires Ordered(slots, executed, last) && Selected(slots, 0, found, index)
    ensures Selected(slots, executed, found, index)
  {
  }

  /** The group, given by the places of its slots, is the next mutations in the handoff order, without a
      gap. */
  ghost predicate Gathered(slots: seq<Slot>, executed: nat, group: seq<nat>) {
    forall k | 0 <= k < |group| ::
      && group[k] < |slots| && Live(slots[group[k]]) && Mutates(slots[group[k]].work)
      && slots[group[k]].sequence == executed + 1 + k
  }

  function WorkAt(slots: seq<Slot>, place: nat): Work {
    if place < |slots| then slots[place].work else Lookup(0)
  }

  function Operations(slots: seq<Slot>, group: seq<nat>): nat {
    if group == [] then 0
    else Operations(slots, group[..|group| - 1]) + OperationsOf(WorkAt(slots, group[|group| - 1]))
  }

  function Encoded(slots: seq<Slot>, group: seq<nat>): nat {
    if group == [] then 0
    else Encoded(slots, group[..|group| - 1]) + EncodedOf(WorkAt(slots, group[|group| - 1]))
  }

  /** Every live command stays live with its place, its sequence and its work. */
  ghost predicate LiveKept(was: seq<Slot>, now: seq<Slot>) {
    && |now| == |was|
    && forall i | 0 <= i < |was| && Live(was[i]) ::
         Live(now[i]) && now[i].sequence == was[i].sequence && now[i].work == was[i].work
  }

  lemma LiveKeptUpdate(slots: seq<Slot>, i: nat, s: Slot)
    requires i < |slots|
    requires Live(slots[i]) ==> Live(s) && s.sequence == slots[i].sequence && s.work == slots[i].work
    ensures LiveKept(slots, slots[i := s])
  {
  }

  lemma LiveKeptOn(a: seq<Slot>, b: seq<Slot>, c: seq<Slot>)
    requires LiveKept(a, b) && LiveKept(b, c)
    ensures LiveKept(a, c)
  {
  }

  /** What others do to live commands leaves a group as it is. */
  lemma {:induction false} GatheredKept(was: seq<Slot>, now: seq<Slot>, executed: nat, group: seq<nat>)
    requires LiveKept(was, now) && Gathered(was, executed, group)
    ensures Gathered(now, executed, group)
    ensures Operations(now, group) == Operations(was, group) && Encoded(now, group) == Encoded(was, group)
    decreases |group|
  {
    if group != [] {
      var front, last := group[..|group| - 1], group[|group| - 1];
      GatheredKept(was, now, executed, front);
      assert group[|group| - 1] == last && WorkAt(now, last) == WorkAt(was, last);
      assert forall k | 0 <= k < |front| :: front[k] == group[k];
      hide OperationsOf, EncodedOf;
    }
  }

  /** With its first command finished, the rest of a group is next. */
  lemma GatheredRest(was: seq<Slot>, now: seq<Slot>, executed: nat, group: seq<nat>)
    requires Gathered(was, executed, group) && group != [] && |now| == |was|
    requires forall i | 0 <= i < |was| && i != group[0] :: now[i] == was[i]
    ensures Gathered(now, executed + 1, group[1..])
  {
    var rest := group[1..];
    forall k | 0 <= k < |rest|
      ensures rest[k] < |now| && Live(now[rest[k]]) && Mutates(now[rest[k]].work) && now[rest[k]].sequence == executed + 2 + k
    {
      assert rest[k] == group[k + 1] && group[0] < |was|;
    }
  }

  /** What callers do while the coordinator waits with the mutex released. */
  datatype Event =
    | ReserveSlot(inProgress: bool, charge: nat, submit: bool, refused: bool)
    | FillSlot(index: nat, work: Work)
    | HandOver(inProgress: bool, index: nat, refused: bool)
    | GiveUp(inProgress: bool, index: nat)
    | CollectSlot(inProgress: bool, index: nat)
    | BeginAbort
    | BeginClose

  /** One turn of the collection loop: whether its time is over, what happens if it waits, and whether its
      time is over when it is woken. */
  datatype Pass = Pass(expired: bool, events: seq<Event>, late: bool)

  datatype Turned = Joined | Waited | Stopped(over: bool)

  /** What the coordinator does next: wait, run or reject the command in turn, or run a group. */
  datatype Next = Idle | Execute(place: nat) | Reject(place: nat) | Group(places: seq<nat>)

  // ---------------------------------------------------------------------------------------
  // Objects

  class AdmissionPool {
    const slots: array<Slot>
    const budget: nat
    var retained: nat

    constructor (commands: nat, budget: nat)
      ensures fresh(slots) && slots.Length == commands && this.budget == budget && Valid()
      ensures forall i | 0 <= i < commands :: slots[i] == FREE
    {
      slots := new Slot[commands](_ => FREE);
      this.budget, retained := budget, 0;
      new;
      NothingRetained(slots[..]);
    }

    /** What is retained is what the used slots are charged, and within the budget. */
    ghost predicate Valid()
      reads this, slots
    {
      retained == Retained(slots[..]) <= budget
    }

    /** Takes the first free slot when the budget has room. Nothing free is a reason to wait; a charge
        over the whole budget never fits. */
    method Reserve(charge: nat, submit: bool) returns (oversize: bool, taken: bool, index: nat)
      requires Valid()
      modifies this`retained, slots
      ensures Valid() && oversize == (charge > budget)
      ensures taken <==>
        old(retained) + charge <= budget && exists i :: 0 <= i < slots.Length && !old(slots[i].used)
      ensures taken ==> index < slots.Length && !old(slots[index].used)
      ensures taken ==> slots[..] == old(slots[..])[index := Blank(charge, submit)]
      ensures !taken ==> slots[..] == old(slots[..])
    {
      oversize, taken, index := charge > budget, false, 0;
      if oversize || retained > budget - charge {
        return;
      }
      for i := 0 to slots.Length
        invariant !taken && slots[..] == old(slots[..]) && retained == old(retained)
        invariant forall j | 0 <= j < i :: slots[j].used
      {
        if !slots[i].used {
          RetainedUpdate(slots[..], i, Blank(charge, submit));
          slots[i] := Blank(charge, submit);
          retained := retained + charge;
          return false, true, i;
        }
      }
    }

    /** Gives a slot's charge back. The subtraction never goes below zero. */
    method Clear(index: nat)
      requires Valid() && index < slots.Length && slots[index].used
      modifies this`retained, slots
      ensures Valid() && retained == old(retained) - old(slots[index].charge)
      ensures slots[..] == old(slots[..])[index := FREE]
    {
      RetainedAtLeast(slots[..], index);
      RetainedUpdate(slots[..], index, FREE);
      retained := retained - slots[index].charge;
      slots[index] := FREE;
    }
  }

  lemma {:induction false} NothingRetained(slots: seq<Slot>)
    requires forall i | 0 <= i < |slots| :: slots[i] == FREE
    ensures Retained(slots) == 0
  {
    if slots != [] {
      NothingRetained(slots[..|slots| - 1]);
    }
  }

  datatype Reservation = Denied | Oversize | Wait | Taken(index: nat)

  datatype Handover = NotHanded | Exhausted | Handed

  /** Every used slot holds a legal command, and once it is handed over it is charged for that command. */
  ghost predicate Filled(c: Config, slots: seq<Slot>) {
    forall i | 0 <= i < |slots| && slots[i].used ::
      Legal(c, slots[i].work) && (Live(slots[i]) ==> slots[i].charge == ChargeOf(slots[i].work))
  }

  class Admission {
    const config: Config
    const ordinary: AdmissionPool
    const progress: AdmissionPool
    var lastSequence: nat
    var aborting: bool
    var closing: bool
    var maintenance: bool
    ghost var executed: nat

    constructor (config: Config)
      requires Accepted(config)
      ensures Valid() && lastSequence == 0 && executed == 0 && this.config == config
      ensures !aborting && !closing && !maintenance
      ensures fresh(ordinary) && fresh(progress) && fresh(ordinary.slots) && fresh(progress.slots)
      ensures forall s | s in All() :: s == FREE
    {
      hide Accepted;
      this.config := config;
      ordinary := new AdmissionPool(config.ordinaryCommands, config.ordinaryRetained);
      progress := new AdmissionPool(config.progressCommands, config.progressRetained);
      lastSequence, executed := 0, 0;
      aborting, closing, maintenance := false, false, false;
    }

    ghost function All(): seq<Slot>
      reads ordinary.slots, progress.slots
    {
      ordinary.slots[..] + progress.slots[..]
    }

    /** Where a slot of one pool is among all slots. */
    function Place(inProgress: bool, index: nat): nat {
      if inProgress then ordinary.slots.Length + index else index
    }

    ghost predicate Shape()
      reads this
    {
      && ordinary != progress && ordinary.slots != progress.slots
      && ordinary.budget == config.ordinaryRetained && progress.budget == config.progressRetained
      && ordinary.slots.Length == config.ordinaryCommands && progress.slots.Length == config.progressCommands
    }

    ghost predicate Valid()
      reads this, ordinary, progress, ordinary.slots, progress.slots
    {
      && Accepted(config) && Shape()
      && ordinary.Valid() && progress.Valid()
      && lastSequence <= MAX_U64 && Ordered(All(), executed, lastSequence)
      && Filled(config, All())
    }

    /** One slot of one pool is replaced. */
    lemma Replaced(pool: AdmissionPool, index: nat, s: Slot, was: seq<Slot>, slots: seq<Slot>)
      requires Shape() && (pool == ordinary || pool == progress) && index < pool.slots.Length == |slots|
      requires pool.slots[..] == slots[index := s]
      requires was == if pool == ordinary then slots + progress.slots[..] else ordinary.slots[..] + slots
      ensures All() == was[Place(pool == progress, index) := s]
    {
    }

    /** Takes a free slot of the pool if the budget has room. Cancellation or a closed gate refuses, a charge
        over the whole budget never fits, and otherwise the caller waits. A legal command is never too
        big. */
    method Reserve(pool: AdmissionPool, charge: nat, submit: bool, refused: bool) returns (r: Reservation)
      requires Valid() && (pool == ordinary || pool == progress)
      modifies pool`retained, pool.slots
      ensures Valid() && executed == old(executed) && lastSequence == old(lastSequence)
      ensures r.Denied? <==> refused
      ensures r.Oversize? <==> !refused && charge > pool.budget
      ensures r.Taken? <==>
        && !refused && old(pool.retained) + charge <= pool.budget
        && exists i :: 0 <= i < pool.slots.Length && !old(pool.slots[i].used)
      ensures r.Taken? ==>
        && r.index < pool.slots.Length && !old(pool.slots[r.index].used)
        && pool.slots[..] == old(pool.slots[..])[r.index := Blank(charge, submit)]
      ensures !r.Taken? ==> pool.slots[..] == old(pool.slots[..])
      ensures LiveKept(old(All()), All())
      ensures forall w: Work |
        Legal(config, w) && charge == ChargeOf(w) && pool == (if Ordinary(w) then ordinary else progress) :: !r.Oversize?
    {
      hide Accepted, Ordered, Legal, ChargeOf;
      forall w: Work | Legal(config, w) && charge == ChargeOf(w) && pool == (if Ordinary(w) then ordinary else progress)
        ensures charge <= pool.budget
      {
        LegalFits(config, w);
      }
      if refused {
        return Denied;
      }
      ghost var was, slots := All(), pool.slots[..];
      var oversize, taken, index := pool.Reserve(charge, submit);
      if taken {
        Replaced(pool, index, Blank(charge, submit), was, slots);
        ghost var at := Place(pool == progress, index);
        IdleOrdered(was, executed, lastSequence, at, Blank(charge, submit));
        BlankLegal(config, charge, submit);
        FilledUpdate(config, was, at, Blank(charge, submit));
        LiveKeptUpdate(was, at, Blank(charge, submit));
        return Taken(index);
      }
      assert All() == was;
      return if oversize then Oversize else Wait;
    }

    /** The caller that reserved a slot puts its command there. */
    method Fill(pool: AdmissionPool, index: nat, work: Work)
      requires Valid() && pool == (if Ordinary(work) then ordinary else progress)
      requires index < pool.slots.Length && pool.slots[index].used && !pool.slots[index].handed
      requires Legal(config, work) && pool.slots[index].charge == ChargeOf(work)
      modifies pool.slots
      ensures Valid() && executed == old(executed) && lastSequence == old(lastSequence)
      ensures pool.slots[..] == old(pool.slots[..])[index := old(pool.slots[index]).(work := work)]
      ensures LiveKept(old(All()), All())
    {
      hide Accepted, Ordered, Legal, ChargeOf;
      var s := pool.slots[index].(work := work);
      Update(pool, index, s);
    }

    /** Replaces a slot by one with the same charge that is live with the same sequence, or is as little
        live as it was. */
    method Update(pool: AdmissionPool, index: nat, s: Slot)
      requires Valid() && (pool == ordinary || pool == progress) && index < pool.slots.Length
      requires s.used && pool.slots[index].used && s.charge == pool.slots[index].charge
      requires Live(s) == Live(pool.slots[index])
      requires Live(s) ==> s.sequence == pool.slots[index].sequence && s.work == pool.slots[index].work
      requires Legal(config, s.work) && (Live(s) ==> s.charge == ChargeOf(s.work))
      modifies pool.slots
      ensures Valid() && executed == old(executed) && lastSequence == old(lastSequence)
      ensures pool.slots[..] == old(pool.slots[..])[index := s] && LiveKept(old(All()), All())
    {
      hide Accepted, Ordered, Legal, ChargeOf;
      ghost var was, slots, at := All(), pool.slots[..], Place(pool == progress, index);
      if Live(s) {
        SameOrdered(was, executed, lastSequence, at, s);
      } else {
        IdleOrdered(was, executed, lastSequence, at, s);
      }
      FilledUpdate(config, was, at, s);
      LiveKeptUpdate(was, at, s);
      RetainedUpdate(slots, index, s);
      pool.slots[index] := s;
      Replaced(pool, index, s, was, slots);
    }

    /** Gives a filled slot the next sequence; from here on it will be executed. Cancellation, a closed gate
        or the last sequence of all refuses and changes nothing. */
    method Handoff(pool: AdmissionPool, index: nat, refused: bool) returns (r: Handover)
      requires Valid() && (pool == ordinary || pool == progress)
      requires index < pool.slots.Length && pool.slots[index].used
      requires !pool.slots[index].handed && !pool.slots[index].finished
      requires pool.slots[index].charge == ChargeOf(pool.slots[index].work)
      modifies this`lastSequence, pool.slots
      ensures Valid() && executed == old(executed)
      ensures r.NotHanded? <==> refused
      ensures r.Exhausted? <==> !refused && old(lastSequence) == MAX_U64
      ensures r.Handed? ==>
        && lastSequence == old(lastSequence) + 1
        && pool.slots[..] == old(pool.slots[..])[index := old(pool.slots[index]).(handed := true, sequence := lastSequence)]
      ensures !r.Handed? ==> lastSequence == old(lastSequence) && pool.slots[..] == old(pool.slots[..])
      ensures LiveKept(old(All()), All())
    {
      hide Accepted, Ordered, Legal, ChargeOf;
      if refused {
        return NotHanded;
      }
      if lastSequence == MAX_U64 {
        return Exhausted;
      }
      ghost var was, slots, at := All(), pool.slots[..], Place(pool == progress, index);
      var s := pool.slots[index].(handed := true, sequence := lastSequence + 1);
      HandoffOrdered(was, executed, lastSequence, at, s);
      FilledUpdate(config, was, at, s);
      LiveKeptUpdate(was, at, s);
      RetainedUpdate(slots, index, s);
      lastSequence := lastSequence + 1;
      pool.slots[index] := s;
      Replaced(pool, index, s, was, slots);
      return Handed;
    }

    /** One whole call, with nothing else in between: the check in front, the reservation, the filling and
        the handoff. If the handoff is refused the slot is given back. */
    method Admit(work: Work, gate: bool, handoverGate: bool) returns (r: Handover)
      requires Valid()
      modifies this`lastSequence, ordinary`retained, progress`retained, ordinary.slots, progress.slots
      ensures Valid() && executed == old(executed)
      ensures r.Handed? ==> lastSequence == old(lastSequence) + 1 && Legal(config, work)
      ensures r.Handed? ==> exists s :: s in All() && Live(s) && s.sequence == lastSequence && s.work == work
      ensures !r.Handed? ==> lastSequence == old(lastSequence)
      ensures (forall s | s in old(All()) :: !s.used) && old(lastSequence) < MAX_U64 ==>
        (Legal(config, work) && !gate && !handoverGate ==> r.Handed?)
    {
      hide Accepted, Ordered, ChargeOf, LegalBatch;
      if !Legal(config, work) {
        return NotHanded;
      }
      LegalFits(config, work);
      var pool := if Ordinary(work) then ordinary else progress;
      PoolOf(pool, work);
      var reservation := Reserve(pool, ChargeOf(work), work.Submit?, gate);
      if !reservation.Taken? {
        return NotHanded;
      }
      var index := reservation.index;
      Fill(pool, index, work);
      r := Handoff(pool, index, handoverGate);
      if r.Handed? {
        assert All()[Place(pool == progress, index)] == pool.slots[index];
      } else {
        Collect(pool, index);
      }
    }

    /** With no slot in use, both pools have room for a legal command. */
    lemma PoolOf(pool: AdmissionPool, work: Work)
      requires Valid() && pool == (if Ordinary(work) then ordinary else progress) && Legal(config, work)
      ensures ChargeOf(work) <= pool.budget && pool.slots.Length > 0
      ensures (forall s | s in All() :: !s.used) ==> pool.retained == 0 && !pool.slots[0].used
    {
      LegalFits(config, work);
      hide Ordered, ChargeOf, Legal;
      assert pool.slots.Length > 0;
      if forall s | s in All() :: !s.used {
        forall i | 0 <= i < pool.slots.Length ensures !pool.slots[i].used {
          assert pool.slots[i] == All()[Place(pool == progress, i)];
        }
        NoneRetained(pool.slots[..]);
      }
    }

    /** The caller gives up waiting for a command it has handed over. */
    method Abandon(pool: AdmissionPool, index: nat)
      requires Valid() && (pool == ordinary || pool == progress)
      requires index < pool.slots.Length && Live(pool.slots[index])
      modifies pool.slots
      ensures Valid() && executed == old(executed) && lastSequence == old(lastSequence)
      ensures pool.slots[..] == old(pool.slots[..])[index := old(pool.slots[index]).(abandoned := true)]
      ensures LiveKept(old(All()), All())
    {
      hide Accepted, Ordered, Legal, ChargeOf;
      FilledAt(pool, index);
      Update(pool, index, pool.slots[index].(abandoned := true));
    }

    lemma FilledAt(pool: AdmissionPool, index: nat)
      requires Valid() && (pool == ordinary || pool == progress) && index < pool.slots.Length && pool.slots[index].used
      ensures Legal(config, pool.slots[index].work)
      ensures Live(pool.slots[index]) ==> pool.slots[index].charge == ChargeOf(pool.slots[index].work)
      ensures pool.slots[index] == All()[Place(pool == progress, index)]
    {
      hide Accepted, Ordered, Legal, ChargeOf;
      assert pool.slots[index] == All()[Place(pool == progress, index)];
    }

    /** The live command with the least sequence past `after`, over both pools. */
    method NextAfter(after: nat) returns (found: bool, inProgress: bool, index: nat)
      requires Valid()
      ensures Selected(All(), after, found, Place(inProgress, index))
      ensures found ==> index < (if inProgress then progress else ordinary).slots.Length
    {
      hide Accepted, Ordered, Filled;
      var i1, s1 := LeastAfter(ordinary.slots, after);
      var i2, s2 := LeastAfter(progress.slots, after);
      found := s1 > 0 || s2 > 0;
      inProgress := s2 > 0 && (s1 == 0 || s2 < s1);
      index := if inProgress then i2 else i1;
      SelectedBoth(ordinary.slots[..], progress.slots[..], after, i1, s1, i2, s2);
    }

    /** Storage pressure: from here on mutations are rejected. */
    method EnterMaintenance()
      requires Valid()
      modifies this`maintenance
      ensures Valid() && maintenance
    {
      maintenance := true;
    }

    /** The slot at a place. */
    method SlotAt(place: nat) returns (s: Slot)
      requires Shape() && place < |All()|
      ensures s == All()[place]
    {
      if place < ordinary.slots.Length {
        s := ordinary.slots[place];
      } else {
        s := progress.slots[place - ordinary.slots.Length];
      }
    }

    /** The command after `after` in the handoff order; the first one is looked for after zero. */
    method Turn(ghost after: nat, past: nat) returns (found: bool, place: nat)
      requires Valid() && executed <= after <= lastSequence && (past == after || (past == 0 && after == executed))
      ensures found <==> after < lastSequence
      ensures found ==>
        && place < |All()| && Live(All()[place]) && All()[place].sequence == after + 1 && Legal(config, All()[place].work)
    {
      hide Accepted, Legal, ChargeOf;
      var inProgress: bool, index: nat;
      found, inProgress, index := NextAfter(past);
      place := Place(inProgress, index);
      if past != after {
        AfterNothing(All(), executed, lastSequence, found, place);
      }
      NoGaps(All(), executed, lastSequence, after, found, place);
    }

    /** One step of another caller, if it is possible now. */
    method Happen(e: Event)
      requires Valid()
      modifies this`lastSequence, this`aborting, this`closing
      modifies ordinary`retained, progress`retained, ordinary.slots, progress.slots
      ensures Valid() && executed == old(executed) && old(lastSequence) <= lastSequence
      ensures LiveKept(old(All()), All()) && (old(aborting) ==> aborting) && (old(closing) ==> closing)
    {
      hide Accepted, Ordered, Filled, Legal, ChargeOf, LiveKept;
      LiveKeptSame(All());
      match e {
        case ReserveSlot(inProgress, charge, submit, refused) =>
          var r := Reserve(if inProgress then progress else ordinary, charge, submit, refused);
        case FillSlot(index, work) =>
          var pool := if Ordinary(work) then ordinary else progress;
          if index < pool.slots.Length && pool.slots[index].used && !pool.slots[index].handed
             && Legal(config, work) && pool.slots[index].charge == ChargeOf(work) {
            Fill(pool, index, work);
          }
        case HandOver(inProgress, index, refused) =>
          var pool := if inProgress then progress else ordinary;
          if index < pool.slots.Length && pool.slots[index].used && !pool.slots[index].handed
             && !pool.slots[index].finished && pool.slots[index].charge == ChargeOf(pool.slots[index].work) {
            var r := Handoff(pool, index, refused);
          }
        case GiveUp(inProgress, index) =>
          var pool := if inProgress then progress else ordinary;
          if index < pool.slots.Length && Live(pool.slots[index]) {
            Abandon(pool, index);
          }
        case CollectSlot(inProgress, index) =>
          var pool := if inProgress then progress else ordinary;
          if index < pool.slots.Length && pool.slots[index].used && !Live(pool.slots[index]) {
            Collect(pool, index);
          }
        case BeginAbort =>
          aborting, closing := true, true;
        case BeginClose =>
          closing := true;
      }
    }

    method Others(events: seq<Event>)
      requires Valid()
      modifies this`lastSequence, this`aborting, this`closing
      modifies ordinary`retained, progress`retained, ordinary.slots, progress.slots
      ensures Valid() && executed == old(executed) && old(lastSequence) <= lastSequence
      ensures LiveKept(old(All()), All()) && (old(aborting) ==> aborting) && (old(closing) ==> closing)
    {
      hide Valid, LiveKept;
      LiveKeptSame(All());
      for i := 0 to |events|
        invariant Valid() && executed == old(executed) && old(lastSequence) <= lastSequence
        invariant LiveKept(old(All()), All()) && (old(aborting) ==> aborting) && (old(closing) ==> closing)
      {
        ghost var was := All();
        Happen(events[i]);
        LiveKeptOn(old(All()), was, All());
      }
    }

    /** The next command does not join the group: there is none and none is waited for, it changes nothing, or it
        does not fit. */
    ghost predicate Excluded(group: seq<nat>)
      reads this, ordinary.slots, progress.slots
    {
      (executed + |group| == lastSequence && (config.tuning.groupDelay <= 0 || closing)) ||
      exists p :: 0 <= p < |All()| && Live(All()[p]) && All()[p].sequence == executed + |group| + 1 &&
        (|| !Mutates(All()[p].work)
         || Operations(All(), group) + OperationsOf(All()[p].work) > config.groupOperations
         || Encoded(All(), group) + EncodedOf(All()[p].work) > config.groupEncoded)
    }

    /** A group within the limits. */
    ghost predicate Grouped(group: seq<nat>)
      reads this, ordinary.slots, progress.slots
    {
      && 0 < |group| <= config.groupCommands && Gathered(All(), executed, group)
      && Operations(All(), group) <= config.groupOperations && Encoded(All(), group) <= config.groupEncoded
    }

    /** Gathers the mutations in turn, the first one without a check, then as many as fit the limits of a group.
        When there is no further command it may wait, with the mutex released, for others to hand one over, at
        most `waits` times before its time is over. Neither difference goes below zero, and whatever others do
        meanwhile the group is a gapless run of live commands that ends only for a reason. */
    method CollectGroup(first: nat, env: nat -> Pass, waits: nat) returns (group: seq<nat>, over: bool)
      requires Valid() && first < |All()| && Live(All()[first]) && All()[first].sequence == executed + 1
      requires Mutates(All()[first].work)
      modifies this`lastSequence, this`aborting, this`closing
      modifies ordinary`retained, progress`retained, ordinary.slots, progress.slots
      ensures Valid() && executed == old(executed) && old(lastSequence) <= lastSequence && LiveKept(old(All()), All())
      ensures Grouped(group) && group[0] == first && (old(aborting) ==> aborting)
      ensures over ==> config.tuning.groupDelay > 0
      ensures !over ==> |group| == config.groupCommands || aborting || Excluded(group)
    {
      var operations, encoded, last;
      group, operations, encoded, last := StartGroup(first);
      ghost var before := All();
      LiveKeptSame(before);
      CollectingGroup(group, operations, encoded, last);
      hide Valid, LiveKept, Grouped, Excluded, Collecting;
      var turns, waited := 0, 0;
      while |group| < config.groupCommands
        invariant Collecting(group, operations, encoded, last) && LiveKept(before, All())
        invariant executed == old(executed) && old(lastSequence) <= lastSequence && (old(aborting) ==> aborting)
        invariant 0 < |group| && group[0] == first && waited <= waits
        decreases config.groupCommands - |group|, waits - waited
      {
        ghost var was := All();
        var r;
        r, group, operations, encoded, last := CollectTurn(group, operations, encoded, last, env(turns));
        LiveKeptOn(before, was, All());
        if r.Stopped? || (r.Waited? && waited == waits) {
          GroupCollected(group, operations, encoded, last);
          return group, r.Waited? || r.over;
        }
        turns, waited := turns + 1, if r.Waited? then waited + 1 else waited;
      }
      over := false;
      GroupCollected(group, operations, encoded, last);
    }

    /** Between two turns of the loop: the group so far, its work, and the sequence of its last command. */
    ghost predicate Collecting(group: seq<nat>, operations: nat, encoded: nat, last: nat)
      reads this, ordinary, progress, ordinary.slots, progress.slots
    {
      && Valid() && Grouped(group) && last == executed + |group| <= lastSequence
      && operations == Operations(All(), group) && encoded == Encoded(All(), group)
    }

    lemma CollectingGroup(group: seq<nat>, operations: nat, encoded: nat, last: nat)
      requires Valid() && Grouped(group) && last == executed + |group| <= lastSequence
      requires operations == Operations(All(), group) && encoded == Encoded(All(), group)
      ensures Collecting(group, operations, encoded, last)
    {
    }

    lemma GroupCollected(group: seq<nat>, operations: nat, encoded: nat, last: nat)
      requires Collecting(group, operations, encoded, last)
      ensures Valid() && Grouped(group) && |group| <= config.groupCommands
    {
    }

    /** One turn of the collection loop. */
    method CollectTurn(group: seq<nat>, operations: nat, encoded: nat, last: nat, pass: Pass)
      returns (r: Turned, group': seq<nat>, operations': nat, encoded': nat, last': nat)
      requires Collecting(group, operations, encoded, last) && 0 < |group| < config.groupCommands
      modifies this`lastSequence, this`aborting, this`closing
      modifies ordinary`retained, progress`retained, ordinary.slots, progress.slots
      ensures Collecting(group', operations', encoded', last') && LiveKept(old(All()), All())
      ensures executed == old(executed) && old(lastSequence) <= lastSequence && (old(aborting) ==> aborting)
      ensures if r.Joined? then |group'| == |group| + 1 && group'[0] == group[0] else group' == group
      ensures r.Waited? ==> config.tuning.groupDelay > 0
      ensures r.Stopped? ==> if r.over then config.tuning.groupDelay > 0 else aborting || Excluded(group')
    {
      LiveKeptSame(All());
      hide Valid, LiveKept, Grouped, Excluded, Operations, Encoded;
      group', operations', encoded', last' := group, operations, encoded, last;
      if config.tuning.groupDelay > 0 && pass.expired {
        return Stopped(true), group, operations, encoded, last;
      }
      if aborting {
        return Stopped(false), group, operations, encoded, last;
      }
      var found, place := Turn(last, last);
      if found {
        var joined;
        joined, group', operations', encoded' := Join(group, place, operations, encoded);
        last' := if joined then last + 1 else last;
        r := if joined then Joined else Stopped(false);
      } else if config.tuning.groupDelay <= 0 || closing {
        NoneLeft(group);
        r := Stopped(false);
      } else {
        AwaitOthers(group, pass.events);
        r := if pass.late then Stopped(true) else Waited;
      }
    }

    /** Others go on while the coordinator waits, and the group stays as it is. */
    method AwaitOthers(ghost group: seq<nat>, events: seq<Event>)
      requires Valid() && Grouped(group)
      modifies this`lastSequence, this`aborting, this`closing
      modifies ordinary`retained, progress`retained, ordinary.slots, progress.slots
      ensures Valid() && executed == old(executed) && old(lastSequence) <= lastSequence && LiveKept(old(All()), All())
      ensures Grouped(group) && (old(aborting) ==> aborting) && (old(closing) ==> closing)
      ensures Operations(All(), group) == old(Operations(All(), group)) && Encoded(All(), group) == old(Encoded(All(), group))
    {
      hide Valid, LiveKept, Gathered, Operations, Encoded;
      ghost var was := All();
      Others(events);
      GatheredKept(was, All(), executed, group);
    }

    lemma NoneLeft(group: seq<nat>)
      requires executed + |group| == lastSequence && (config.tuning.groupDelay <= 0 || closing)
      ensures Excluded(group)
    {
    }

    /** The first command starts the group without a check. */
    method StartGroup(first: nat) returns (group: seq<nat>, operations: nat, encoded: nat, last: nat)
      requires Valid() && first < |All()| && Live(All()[first]) && All()[first].sequence == executed + 1
      requires Mutates(All()[first].work)
      ensures group == [first] && Grouped(group) && last == executed + 1 <= lastSequence
      ensures operations == Operations(All(), group) && encoded == Encoded(All(), group)
    {
      FirstFits(first);
      hide Accepted, Ordered, Filled, Legal, OperationsOf, EncodedOf;
      var s := SlotAt(first);
      operations, encoded := Measure(config, s.work);
      group, last := [first], s.sequence;
      OneMoreCommand(All(), [], first);
      assert [] + [first] == group;
    }

    /** The next command joins the group if it is a mutation that fits what is left. */
    method Join(group: seq<nat>, place: nat, operations: nat, encoded: nat)
      returns (joined: bool, group': seq<nat>, operations': nat, encoded': nat)
      requires Valid() && Grouped(group) && |group| < config.groupCommands
      requires place < |All()| && Live(All()[place]) && All()[place].sequence == executed + |group| + 1
      requires Legal(config, All()[place].work)
      requires operations == Operations(All(), group) && encoded == Encoded(All(), group)
      ensures !joined ==> group' == group && operations' == operations && encoded' == encoded && Excluded(group)
      ensures joined ==> group' == group + [place] && Grouped(group') && executed + |group'| <= lastSequence
      ensures operations' == Operations(All(), group') && encoded' == Encoded(All(), group')
    {
      InTurn(place);
      hide Accepted, Ordered, Filled, Legal, ChargeOf, OperationsOf, EncodedOf;
      joined, group', operations', encoded' := false, group, operations, encoded;
      var s := SlotAt(place);
      if !Mutates(s.work) {
        return;
      }
      var moreOperations, moreEncoded := Measure(config, s.work);
      if moreOperations > config.groupOperations - operations || moreEncoded > config.groupEncoded - encoded {
        return;
      }
      OneMoreCommand(All(), group, place);
      joined, group' := true, group + [place];
      operations', encoded' := operations + moreOperations, encoded + moreEncoded;
    }

    lemma InTurn(place: nat)
      requires Valid() && place < |All()| && Live(All()[place])
      ensures All()[place].sequence <= lastSequence
    {
      hide Accepted, Filled;
    }

    lemma FirstFits(first: nat)
      requires Valid() && first < |All()| && Live(All()[first])
      ensures Legal(config, All()[first].work) && All()[first].sequence <= lastSequence && 0 < config.groupCommands
      ensures OperationsOf(All()[first].work) <= config.groupOperations
      ensures EncodedOf(All()[first].work) <= config.groupEncoded
    {
      LegalFits(config, All()[first].work);
    }

    /** `place` holds the command in turn. */
    ghost predicate InFront(place: nat)
      reads this, ordinary.slots, progress.slots
    {
      place < |All()| && Live(All()[place]) && All()[place].sequence == executed + 1
    }

    /** The coordinator's choice: a group if the command in turn is a mutation, else that command alone. After
        an abort every command is rejected, also one whose group was being collected, and under maintenance
        every mutation. */
    method Choose(env: nat -> Pass, waits: nat) returns (next: Next)
      requires Valid()
      modifies this`lastSequence, this`aborting, this`closing
      modifies ordinary`retained, progress`retained, ordinary.slots, progress.slots
      ensures Valid() && executed == old(executed) && LiveKept(old(All()), All())
      ensures next.Idle? <==> executed == old(lastSequence)
      ensures next.Execute? ==> InFront(next.place) && !Mutates(All()[next.place].work) && !aborting
      ensures next.Reject? ==> InFront(next.place) && (aborting || (maintenance && Mutates(All()[next.place].work)))
      ensures next.Group? ==> Grouped(next.places) && !aborting && !maintenance
    {
      InOrder();
      hide Valid, Grouped, LiveKept;
      LiveKeptSame(All());
      var found, place := Turn(executed, 0);
      if !found {
        return Idle;
      }
      var s := SlotIn(place);
      if Mutates(s.work) && !aborting && !maintenance {
        ghost var was := All();
        var group, over := CollectGroup(place, env, waits);
        if !aborting {
          return Group(group);
        }
        KeptAt(was, All(), place);
      }
      return if aborting || (maintenance && Mutates(s.work)) then Reject(place) else Execute(place);
    }

    method SlotIn(place: nat) returns (s: Slot)
      requires Valid() && place < |All()|
      ensures s == All()[place]
    {
      s := SlotAt(place);
    }

    lemma KeptAt(was: seq<Slot>, now: seq<Slot>, place: nat)
      requires LiveKept(was, now) && place < |was| && Live(was[place])
      ensures place < |now| && Live(now[place]) && now[place].sequence == was[place].sequence
      ensures now[place].work == was[place].work
    {
    }

    lemma InOrder()
      requires Valid()
      ensures executed <= lastSequence
    {
    }

    /** Ends the command in turn; an abandoned one gives its slot back at once. */
    method Finish(pool: AdmissionPool, index: nat)
      requires Valid() && (pool == ordinary || pool == progress)
      requires index < pool.slots.Length && Live(pool.slots[index]) && pool.slots[index].sequence == executed + 1
      modifies this`executed, pool`retained, pool.slots
      ensures Valid() && executed == old(executed) + 1 && lastSequence == old(lastSequence)
      ensures
        var was := old(pool.slots[index]);
        var after := if was.abandoned then FREE else was.(finished := true, work := Emptied(was.work));
        pool.slots[..] == old(pool.slots[..])[index := after]
    {
      FilledAt(pool, index);
      EmptiedLegal(config, pool.slots[index].work);
      hide Accepted, Ordered, Legal, ChargeOf;
      ghost var was, slots, at := All(), pool.slots[..], Place(pool == progress, index);
      var s := pool.slots[index].(finished := true, work := Emptied(pool.slots[index].work));
      ghost var s' := if s.abandoned then FREE else s;
      FinishOrdered(was, executed, lastSequence, at, s');
      FilledUpdate(config, was, at, s');
      executed := executed + 1;
      if s.abandoned {
        pool.Clear(index);
      } else {
        RetainedUpdate(slots, index, s);
        pool.slots[index] := s;
      }
      Replaced(pool, index, s', was, slots);
    }

    method FinishAt(place: nat)
      requires Valid() && InFront(place)
      modifies this`executed, ordinary`retained, progress`retained, ordinary.slots, progress.slots
      ensures Valid() && executed == old(executed) + 1 && lastSequence == old(lastSequence)
      ensures |All()| == |old(All())| && forall i | 0 <= i < |All()| && i != place :: All()[i] == old(All())[i]
    {
      hide Accepted, Ordered, Filled;
      ghost var was := All();
      if place < ordinary.slots.Length {
        Finish(ordinary, place);
        assert All() == ordinary.slots[..] + progress.slots[..];
      } else {
        Finish(progress, place - ordinary.slots.Length);
      }
    }

    /** Finishing a group, command by command, finishes everything that was in it, in the handoff order. */
    method FinishGroup(group: seq<nat>)
      requires Valid() && Gathered(All(), executed, group)
      modifies this`executed, ordinary`retained, progress`retained, ordinary.slots, progress.slots
      ensures Valid() && executed == old(executed) + |group| && lastSequence == old(lastSequence)
    {
      hide Valid;
      for k := 0 to |group|
        invariant Valid() && executed == old(executed) + k && lastSequence == old(lastSequence)
        invariant Gathered(All(), executed, group[k..])
      {
        ghost var was, left := All(), group[k..];
        assert left[0] == group[k] && left[1..] == group[k + 1..];
        FinishAt(group[k]);
        GatheredRest(was, All(), executed - 1, left);
      }
    }

    /** The caller collects a finished command, or takes back one it never handed over. */
    method Collect(pool: AdmissionPool, index: nat)
      requires Valid() && (pool == ordinary || pool == progress)
      requires index < pool.slots.Length && pool.slots[index].used && !Live(pool.slots[index])
      modifies pool`retained, pool.slots
      ensures Valid() && executed == old(executed) && lastSequence == old(lastSequence)
      ensures pool.slots[..] == old(pool.slots[..])[index := FREE]
      ensures pool.retained == old(pool.retained) - old(pool.slots[index].charge)
      ensures LiveKept(old(All()), All())
    {
      hide Accepted, Ordered, Legal, ChargeOf;
      ghost var was, slots, at := All(), pool.slots[..], Place(pool == progress, index);
      IdleOrdered(was, executed, lastSequence, at, FREE);
      FilledUpdate(config, was, at, FREE);
      LiveKeptUpdate(was, at, FREE);
      pool.Clear(index);
      Replaced(pool, index, FREE, was, slots);
    }
  }

  lemma FilledUpdate(c: Config, slots: seq<Slot>, i: nat, s: Slot)
    requires Filled(c, slots) && i < |slots|
    requires s.used ==> Legal(c, s.work) && (Live(s) ==> s.charge == ChargeOf(s.work))
    ensures Filled(c, slots[i := s])
  {
    hide Legal, ChargeOf;
  }

  lemma BlankLegal(c: Config, charge: nat, submit: bool)
    ensures Legal(c, Blank(charge, submit).work)
  {
  }

  lemma EmptiedLegal(c: Config, w: Work)
    requires Legal(c, w)
    ensures Legal(c, Emptied(w))
  {
  }

  lemma LiveKeptSame(slots: seq<Slot>)
    ensures LiveKept(slots, slots)
  {
  }

  lemma OneMoreCommand(slots: seq<Slot>, group: seq<nat>, place: nat)
    requires place < |slots|
    ensures Operations(slots, group + [place]) == Operations(slots, group) + OperationsOf(slots[place].work)
    ensures Encoded(slots, group + [place]) == Encoded(slots, group) + EncodedOf(slots[place].work)
    ensures Operations(slots, []) == 0 && Encoded(slots, []) == 0
  {
    assert (group + [place])[..|group|] == group;
  }

  lemma {:induction false} NoneRetained(slots: seq<Slot>)
    requires forall i | 0 <= i < |slots| :: !slots[i].used
    ensures Retained(slots) == 0
  {
    if slots != [] {
      NoneRetained(slots[..|slots| - 1]);
    }
  }

  /** The least live sequence past `after` in one pool, or 0. */
  method LeastAfter(slots: array<Slot>, after: nat) returns (index: nat, sequence: nat)
    ensures LeastIn(slots[..], after, index, sequence)
  {
    index, sequence := 0, 0;
    for i := 0 to slots.Length
      invariant LeastIn(slots[..i], after, index, sequence)
    {
      var s := slots[i];
      assert slots[..i + 1] == slots[..i] + [s];
      if Live(s) && s.sequence > after && (sequence == 0 || s.sequence < sequence) {
        index, sequence := i, s.sequence;
      }
    }
    assert slots[..slots.Length] == slots[..];
  }

  ghost predicate LeastIn(slots: seq<Slot>, after: nat, index: nat, sequence: nat) {
    if sequence == 0 then forall i | 0 <= i < |slots| && Live(slots[i]) :: slots[i].sequence <= after
    else
      && index < |slots| && Live(slots[index]) && slots[index].sequence == sequence > after
      && (forall i | 0 <= i < |slots| && Live(slots[i]) && slots[i].sequence > after :: sequence <= slots[i].sequence)
  }

  lemma SelectedBoth(a: seq<Slot>, b: seq<Slot>, after: nat, i1: nat, s1: nat, i2: nat, s2: nat)
    requires LeastIn(a, after, i1, s1) && LeastIn(b, after, i2, s2)
    ensures
      var second := s2 > 0 && (s1 == 0 || s2 < s1);
      Selected(a + b, after, s1 > 0 || s2 > 0, if second then |a| + i2 else i1)
  {
    forall i | 0 <= i < |a + b| && Live((a + b)[i]) && (a + b)[i].sequence > after
      ensures s1 > 0 || s2 > 0
      ensures (s1 > 0 && s1 <= (a + b)[i].sequence) || (s2 > 0 && s2 <= (a + b)[i].sequence)
    {
      if i < |a| {
        assert (a + b)[i] == a[i];
      } else {
        assert (a + b)[i] == b[i - |a|];
      }
    }
  }
}
