/** Byte budgets: what commands are charged, in checked 64-bit arithmetic, and why a configuration that
    was accepted never refuses a legal command for its size. */
module DurableBudget {

  const MAX_U64 := 0xFFFF_FFFF_FFFF_FFFF
  const MAX_INT := 0x7FFF_FFFF_FFFF_FFFF
  const COMMAND_BASE := 256
  const ENTRY_BASE := 88

  datatype Checked = Ok(value: nat) | Refused

  // ---------------------------------------------------------------------------------------
  // Checked arithmetic

  /** Twice the size rounded up to eight bytes. */
  function Allowance(size: nat): nat {
    (size + 7) / 8 * 16
  }

  function AllocationCharge(size: nat): Checked {
    if size > MAX_INT || size > MAX_U64 - 7 then Refused
    else
      var rounded := (size + 7) / 8 * 8;
      if rounded > MAX_U64 / 2 then Refused else Ok(rounded * 2)
  }

  function CheckedAdd(left: nat, right: nat): Checked
    requires right <= MAX_U64
  {
    if left > MAX_U64 - right then Refused else Ok(left + right)
  }

  function CheckedMultiply(left: nat, right: nat): Checked {
    if right != 0 && left > MAX_U64 / right then Refused else Ok(left * right)
  }

  /** Checked arithmetic is exact arithmetic refused outside 64 bits. */
  lemma CheckedIsExact(left: nat, right: nat)
    ensures right <= MAX_U64 ==> CheckedAdd(left, right) == if left + right <= MAX_U64 then Ok(left + right) else Refused
    ensures CheckedMultiply(left, right) == if left * right <= MAX_U64 then Ok(left * right) else Refused
  {
    if right != 0 {
      var q := MAX_U64 / right;
      if left <= q {
        Scale(left, q, right);
      } else {
        Scale(q + 1, left, right);
      }
    }
  }

  lemma Scale(a: nat, b: nat, c: nat)
    requires a <= b
    ensures a * c <= b * c
  {
  }

  lemma AllocationIsExact(size: nat)
    ensures AllocationCharge(size) == if size <= MAX_INT && Allowance(size) <= MAX_U64 then Ok(Allowance(size)) else Refused
  {
  }

  lemma AllowanceMonotone(a: nat, b: nat)
    requires a <= b
    ensures Allowance(a) <= Allowance(b) && a * 2 <= Allowance(a)
  {
  }

  lemma AllowanceBound(size: nat)
    ensures Allowance(size) <= 2 * size + 14
  {
  }

  // ---------------------------------------------------------------------------------------
  // Charges

  /** The exact charge of a submission. */
  function SubmitTotal(count: nat, payload: nat, codecs: nat, largest: nat): nat {
    COMMAND_BASE + Allowance(64 * count) + Allowance(count) + Allowance(16 * count)
    + Allowance(payload) + codecs + largest
  }

  function Buffers(count: nat, elements: seq<nat>): nat {
    if elements == [] then 0
    else Buffers(count, elements[..|elements| - 1]) + Allowance(count * elements[|elements| - 1])
  }

  /** Adds the allowances of some buffers of `count` elements to a charge, refusing what overflows. */
  method AddBuffers(base: nat, count: nat, elements: seq<nat>) returns (r: Checked)
    requires base <= MAX_U64
    ensures r.Ok? ==> r.value == base + Buffers(count, elements) <= MAX_U64
    ensures r.Refused? ==>
      base + Buffers(count, elements) > MAX_U64 || exists i :: 0 <= i < |elements| && count * elements[i] > MAX_INT
  {
    var charge := base;
    for i := 0 to |elements|
      invariant charge == base + Buffers(count, elements[..i]) <= MAX_U64
    {
      assert elements[..i + 1][..i] == elements[..i];
      CheckedIsExact(count, elements[i]);
      AllocationIsExact(count * elements[i]);
      BuffersMonotone(count, elements, i + 1);
      var size := CheckedMultiply(count, elements[i]);
      if size.Refused? {
        return Refused;
      }
      var allowance := AllocationCharge(size.value);
      if allowance.Refused? {
        return Refused;
      }
      var sum := CheckedAdd(charge, allowance.value);
      if sum.Refused? {
        return Refused;
      }
      charge := sum.value;
    }
    assert elements[..|elements|] == elements;
    return Ok(charge);
  }

  lemma {:induction false} BuffersMonotone(count: nat, elements: seq<nat>, i: nat)
    requires i <= |elements|
    ensures Buffers(count, elements[..i]) <= Buffers(count, elements)
  {
    if i < |elements| {
      BuffersMonotone(count, elements[..|elements| - 1], i);
      assert elements[..|elements| - 1][..i] == elements[..i];
    } else {
      assert elements[..i] == elements;
    }
  }

  method SubmitCharge(count: nat, payload: nat, codecs: nat, largest: nat) returns (r: Checked)
    requires codecs <= MAX_U64 && largest <= MAX_U64
    ensures r.Ok? ==> r.value == SubmitTotal(count, payload, codecs, largest)
    ensures 64 * count <= MAX_INT && payload <= MAX_INT && SubmitTotal(count, payload, codecs, largest) <= MAX_U64 ==> r.Ok?
  {
    ThreeBuffers(count);
    var base := AddBuffers(COMMAND_BASE, count, [64, 1, 16]);
    AllocationIsExact(payload);
    var arena := AllocationCharge(payload);
    if base.Refused? || arena.Refused? {
      return Refused;
    }
    var charge := base.value;
    var parts := [arena.value, codecs, largest];
    var i := 0;
    while i < 3
      invariant 0 <= i <= 3
      invariant charge == base.value + (if i > 0 then parts[0] else 0) + (if i > 1 then parts[1] else 0) + (if i > 2 then parts[2] else 0)
    {
      var sum := CheckedAdd(charge, parts[i]);
      if sum.Refused? {
        return Refused;
      }
      charge, i := sum.value, i + 1;
    }
    return Ok(charge);
  }

  lemma ThreeBuffers(count: nat)
    ensures Buffers(count, [64, 1, 16]) == Allowance(64 * count) + Allowance(count) + Allowance(16 * count)
  {
    var one: seq<nat>, two: seq<nat>, three: seq<nat> := [64], [64, 1], [64, 1, 16];
    assert three[..2] == two && two[..1] == one && one[..0] == [];
    assert Buffers(count, one) == Allowance(count * 64);
    assert Buffers(count, two) == Buffers(count, one) + Allowance(count * 1);
    assert Buffers(count, three) == Buffers(count, two) + Allowance(count * 16);
  }

  lemma TwoBuffers(count: nat)
    ensures Buffers(count, [24, 40]) == Allowance(24 * count) + Allowance(40 * count)
  {
    var one: seq<nat>, two: seq<nat> := [24], [24, 40];
    assert two[..1] == one && one[..0] == [];
    assert Buffers(count, one) == Allowance(count * 24);
    assert Buffers(count, two) == Buffers(count, one) + Allowance(count * 40);
  }

  function LookupTotal(count: nat): nat {
    COMMAND_BASE + Allowance(24 * count) + Allowance(40 * count)
  }

  method LookupCharge(count: nat) returns (r: Checked)
    ensures r.Ok? ==> r.value == LookupTotal(count)
    ensures 40 * count <= MAX_INT && LookupTotal(count) <= MAX_U64 ==> r.Ok?
  {
    TwoBuffers(count);
    r := AddBuffers(COMMAND_BASE, count, [24, 40]);
  }

  // ---------------------------------------------------------------------------------------
  // Configurations

  /** The persistent limits of a store. */
  datatype Limits = Limits(
    maxPendingItems: nat,
    maxPendingPayload: nat,
    maxReceipts: nat,
    maxProducers: nat,
    databaseLimit: nat)

  /** Storage tuning. Times are in nanoseconds and signed. */
  datatype Tuning = Tuning(
    cache: nat,
    mmap: nat,
    checkpointTrigger: nat,
    checkpointInterval: int,
    busyTimeout: int,
    groupDelay: int)

  datatype Config = Config(
    knownProfile: bool,
    durability: nat,
    limits: Limits,
    maxPayload: nat,
    maxCodec: nat,
    ordinaryCommands: nat,
    progressCommands: nat,
    submitItems: nat,
    submitEncoded: nat,
    ackItems: nat,
    lookupItems: nat,
    groupCommands: nat,
    groupOperations: nat,
    groupEncoded: nat,
    ordinaryRetained: nat,
    progressRetained: nat,
    deliveryItems: nat,
    receiveItems: nat,
    scanRows: nat,
    deliveryRetained: nat,
    readScratch: nat,
    cleanupRows: nat,
    cleanupEncoded: nat,
    maxCommandTurns: nat,
    tuning: Tuning)

  predicate PolicyValid(c: Config) {
    && c.knownProfile && 0 < c.maxPayload <= 16384 && c.maxCodec <= 64
    && 0 < c.limits.maxPendingItems <= 4096
    && c.maxPayload <= c.limits.maxPendingPayload <= 0x100_0000
    && c.limits.maxPendingItems <= c.limits.maxReceipts <= 16384
    && 0 < c.limits.maxProducers <= 256
    && 0 < c.limits.databaseLimit <= 0x4000_0000 && c.limits.databaseLimit % 4096 == 0
  }

  /** The ceilings that make every later sum and product fit. */
  predicate WithinCeilings(c: Config) {
    && PolicyValid(c)
    && c.durability <= 1
    && 0 < c.ordinaryCommands <= 64 && 0 < c.progressCommands <= 64 && 0 < c.groupCommands <= 64
    && 0 < c.submitItems <= 256 && 0 < c.ackItems <= 256 && 0 < c.lookupItems <= 256 && 0 < c.groupOperations <= 256
    && 0 < c.deliveryItems <= 256 && 0 < c.receiveItems <= 256 && 0 < c.scanRows <= 256
    && 0 < c.cleanupRows <= 256 && 0 < c.maxCommandTurns <= 8
    && 0 < c.submitEncoded <= 0x20_0000 && 0 < c.groupEncoded <= 0x20_0000
    && 0 < c.ordinaryRetained <= 0x80_0000 && 0 < c.progressRetained <= 0x4_0000
    && 0 < c.deliveryRetained <= 0x40_0000 && 0 < c.readScratch <= 0x8000
    && 0 < c.cleanupEncoded <= 0x1_0000
  }

  lemma Ceilings(c: Config)
    requires WithinCeilings(c)
    ensures 0 < c.submitItems <= 256 && 0 < c.submitEncoded <= 0x20_0000
    ensures 0 < c.maxPayload <= 16384 && c.maxCodec <= 64 && c.ordinaryRetained <= 0x80_0000
  {
  }

  predicate TuningValid(t: Tuning) {
    && 0x80_0000 <= t.cache <= 0x400_0000 && t.mmap <= 0x1000_0000
    && 0x40_0000 <= t.checkpointTrigger <= 0x100_0000
    && 0 < t.checkpointInterval <= 1_000_000_000
    && 0 <= t.busyTimeout <= 5_000_000_000
    && 0 <= t.groupDelay <= 10_000_000
  }

  function Min(a: nat, b: nat): nat {
    if a <= b then a else b
  }

  function Max(a: nat, b: nat): nat {
    if a <= b then b else a
  }

  /** The most a submission of `count` entries can be charged, payload and codec both overestimated. */
  function LargestOf(c: Config, count: nat): nat
    requires Possible(c, count)
  {
    SubmitTotal(count, Min(count * c.maxPayload, c.submitEncoded - count * ENTRY_BASE),
                count * Allowance(c.maxCodec), Allowance(c.maxCodec))
  }

  /** `n` is a batch size whose entries alone can fit. */
  predicate Possible(c: Config, n: nat) {
    1 <= n <= c.submitItems && n * ENTRY_BASE <= c.submitEncoded
  }

  /** The largest charge over all batch sizes, found by trying every one. */
  method MaximumSubmitCharge(c: Config) returns (maximum: nat)
    requires WithinCeilings(c)
    ensures maximum >= COMMAND_BASE
    ensures forall n | Possible(c, n) :: LargestOf(c, n) <= maximum
    ensures maximum == COMMAND_BASE || exists n :: Possible(c, n) && maximum == LargestOf(c, n)
  {
    hide WithinCeilings, LargestOf, Allowance;
    maximum := COMMAND_BASE;
    var count: nat := 1;
    while count <= c.submitItems
      invariant 1 <= count <= c.submitItems + 1 && maximum >= COMMAND_BASE
      invariant forall n: nat | Possible(c, n) && n < count :: LargestOf(c, n) <= maximum
      invariant maximum == COMMAND_BASE || exists n :: Possible(c, n) && maximum == LargestOf(c, n)
    {
      if count * ENTRY_BASE > c.submitEncoded {
        return;
      }
      var charge := LargestCharge(c, count);
      maximum := Max(maximum, charge);
      count := count + 1;
    }
  }

  method LargestCharge(c: Config, count: nat) returns (charge: nat)
    requires WithinCeilings(c) && Possible(c, count)
    ensures charge == LargestOf(c, count)
  {
    LargestBound(c, count);
    hide WithinCeilings, Allowance;
    var payload := Min(count * c.maxPayload, c.submitEncoded - count * ENTRY_BASE);
    var r := SubmitCharge(count, payload, count * Allowance(c.maxCodec), Allowance(c.maxCodec));
    charge := r.value;
  }

  lemma LargestBound(c: Config, count: nat)
    requires WithinCeilings(c) && Possible(c, count)
    ensures 0 <= count * Allowance(c.maxCodec) <= 256 * 144 && LargestOf(c, count) <= MAX_U64
    ensures Allowance(c.maxCodec) <= 144 && 64 * count <= MAX_INT && c.submitEncoded <= MAX_INT
  {
    hide Allowance, WithinCeilings;
    Ceilings(c);
    AllowanceBound(c.maxCodec);
    Scale(count, 256, Allowance(c.maxCodec));
    AllowanceBound(64 * count);
    AllowanceBound(count);
    AllowanceBound(16 * count);
    AllowanceBound(Min(count * c.maxPayload, c.submitEncoded - count * ENTRY_BASE));
  }

  /** Scratch for reading one delivery. */
  function SourceBuffer(size: nat): nat {
    Min(Allowance(size), (size + 8191) / 8192 * 8192)
  }

  function DeliveryScratch(payload: nat, codec: nat): nat {
    SourceBuffer(payload) + SourceBuffer(codec) + 2 * codec + 1024
  }

  /** The most encoded bytes one submission can carry. */
  function LargestBatch(c: Config): nat {
    Min(c.submitEncoded, c.submitItems * Record(c))
  }

  /** The most encoded bytes one entry can take. */
  function Record(c: Config): nat {
    ENTRY_BASE + c.maxPayload + c.maxCodec
  }

  predicate DeliveryRelated(c: Config) {
    && c.deliveryRetained >= Allowance(c.maxPayload) + Allowance(c.maxCodec) + 256
    && c.readScratch >= DeliveryScratch(c.maxPayload, c.maxCodec)
    && c.receiveItems <= c.deliveryItems && c.cleanupEncoded >= 24 + 32 + 1 + 8 + 56 + 26
  }

  predicate PoolsRelated(c: Config, submitRetained: nat) {
    && c.submitEncoded >= Record(c)
    && c.ordinaryRetained >= submitRetained && c.ordinaryRetained >= LookupTotal(c.lookupItems)
    && c.progressRetained >= 256 + 128 * c.ackItems && c.progressRetained >= 384
  }

  predicate GroupRelated(c: Config) {
    && c.groupOperations >= c.submitItems && c.groupOperations >= c.ackItems
    && c.groupEncoded >= LargestBatch(c) && c.groupEncoded >= 56 * c.ackItems && c.groupEncoded >= 24
  }

  /** The relations between the budgets, as the configuration check states them. */
  predicate Related(c: Config, submitRetained: nat) {
    DeliveryRelated(c) && PoolsRelated(c, submitRetained) && GroupRelated(c)
  }

  /** Accepted: within the ceilings, related, well tuned, and every batch size's largest charge within the
      pool. */
  ghost predicate Accepted(c: Config) {
    && WithinCeilings(c) && Related(c, COMMAND_BASE) && TuningValid(c.tuning)
    && forall n | Possible(c, n) :: LargestOf(c, n) <= c.ordinaryRetained
  }

  method ValidateConfig(c: Config) returns (ok: bool)
    ensures ok <==> Accepted(c)
  {
    if !WithinCeilings(c) {
      return false;
    }
    var submitRetained := MaximumSubmitCharge(c);
    ok := Related(c, submitRetained) && TuningValid(c.tuning);
  }

  /** The defaults of the installed profile, completed by a caller's policy and durability. */
  function DefaultRuntime(knownProfile: bool, durability: nat, limits: Limits, maxPayload: nat, maxCodec: nat): Config {
    Config(knownProfile := knownProfile, durability := durability, limits := limits,
           maxPayload := maxPayload, maxCodec := maxCodec,
           ordinaryCommands := 64, progressCommands := 64,
           submitItems := 256, submitEncoded := 0x20_0000, ackItems := 256, lookupItems := 256,
           groupCommands := 64, groupOperations := 256, groupEncoded := 0x20_0000,
           ordinaryRetained := 0x80_0000, progressRetained := 0x4_0000,
           deliveryItems := 256, receiveItems := 32, scanRows := 256,
           deliveryRetained := 0x40_0000, readScratch := 0x8000,
           cleanupRows := 256, cleanupEncoded := 0x1_0000, maxCommandTurns := 8,
           tuning := Tuning(0x400_0000, 0x1000_0000, 0x100_0000, 1_000_000_000, 5_000_000_000, 1_000_000))
  }

  /** The defaults need nothing but a valid policy: every relation between the budgets then holds. */
  lemma DefaultsAccepted(c: Config)
    requires c == DefaultRuntime(c.knownProfile, c.durability, c.limits, c.maxPayload, c.maxCodec) && c.durability <= 1
    ensures Accepted(c) <==> PolicyValid(c)
  {
    if PolicyValid(c) {
      AllowanceBound(c.maxPayload);
      AllowanceBound(c.maxCodec);
      forall n | Possible(c, n) ensures LargestOf(c, n) <= c.ordinaryRetained {
        DefaultCharge(c, n);
      }
    }
  }

  lemma DefaultCharge(c: Config, n: nat)
    requires Possible(c, n) && n <= 256 && c.submitEncoded == 0x20_0000 && c.maxCodec <= 64
    ensures LargestOf(c, n) <= 0x80_0000
  {
    AllowanceBound(c.maxCodec);
    Scale(n, 256, Allowance(c.maxCodec));
    AllowanceBound(64 * n);
    AllowanceBound(n);
    AllowanceBound(16 * n);
    AllowanceBound(Min(n * c.maxPayload, c.submitEncoded - n * ENTRY_BASE));
    hide Allowance;
  }

  // ---------------------------------------------------------------------------------------
  // Every legal command fits

  /** One entry as the size check sees it. */
  datatype Sizes = Sizes(id: nat, codec: nat, payload: nat)

  function PayloadSum(entries: seq<Sizes>): nat {
    if entries == [] then 0 else PayloadSum(entries[..|entries| - 1]) + entries[|entries| - 1].payload
  }

  function CodecSum(entries: seq<Sizes>): nat {
    if entries == [] then 0 else CodecSum(entries[..|entries| - 1]) + Allowance(entries[|entries| - 1].codec)
  }

  function LargestCodec(entries: seq<Sizes>): nat {
    if entries == [] then 0
    else
      var before, last := LargestCodec(entries[..|entries| - 1]), Allowance(entries[|entries| - 1].codec);
      if before <= last then last else before
  }

  function EncodedSum(entries: seq<Sizes>): nat {
    if entries == [] then 0
    else EncodedSum(entries[..|entries| - 1]) + ENTRY_BASE + entries[|entries| - 1].codec + entries[|entries| - 1].payload
  }

  /** What a caller may submit. */
  predicate LegalBatch(c: Config, entries: seq<Sizes>) {
    && |entries| <= c.submitItems && EncodedSum(entries) <= c.submitEncoded
    && (forall i | 0 <= i < |entries| :: entries[i].codec <= c.maxCodec && entries[i].payload <= c.maxPayload)
    && (forall i, j | 0 <= i < j < |entries| :: entries[i].id != entries[j].id)
  }

  lemma {:induction false} SumsBounded(c: Config, entries: seq<Sizes>)
    requires forall i | 0 <= i < |entries| :: entries[i].codec <= c.maxCodec && entries[i].payload <= c.maxPayload
    ensures PayloadSum(entries) <= |entries| * c.maxPayload
    ensures CodecSum(entries) <= |entries| * Allowance(c.maxCodec) && LargestCodec(entries) <= Allowance(c.maxCodec)
    ensures |entries| * ENTRY_BASE + PayloadSum(entries) <= EncodedSum(entries)
    ensures EncodedSum(entries) <= |entries| * Record(c)
  {
    if entries != [] {
      var n := |entries| - 1;
      SumsBounded(c, entries[..n]);
      AllowanceMonotone(entries[n].codec, c.maxCodec);
      OneMore(n, c.maxPayload);
      OneMore(n, Allowance(c.maxCodec));
      OneMore(n, Record(c));
    }
  }

  lemma OneMore(n: nat, x: nat)
    ensures (n + 1) * x == n * x + x
  {
  }

  /** A legal submission is never refused for its size. */
  lemma SubmissionFits(c: Config, entries: seq<Sizes>)
    requires Accepted(c) && LegalBatch(c, entries)
    ensures SubmitTotal(|entries|, PayloadSum(entries), CodecSum(entries), LargestCodec(entries)) <= c.ordinaryRetained
    ensures |entries| <= c.groupOperations && EncodedSum(entries) <= c.groupEncoded
  {
    hide DeliveryRelated, Allowance, LookupTotal;
    SumsBounded(c, entries);
    var n := |entries|;
    Scale(n, c.submitItems, Record(c));
    if n == 0 {
      NoCharge();
    } else {
      var most := Min(n * c.maxPayload, c.submitEncoded - n * ENTRY_BASE);
      assert PayloadSum(entries) <= most;
      AllowanceMonotone(PayloadSum(entries), most);
      assert Possible(c, n);
    }
  }

  /** The bytes of a batch itself. */
  function BytesOf(entries: seq<Sizes>): nat {
    if entries == [] then 0
    else BytesOf(entries[..|entries| - 1]) + entries[|entries| - 1].payload + entries[|entries| - 1].codec
  }

  /** What a submission is charged covers its bytes and its records twice over. */
  lemma SubmitCovers(entries: seq<Sizes>)
    ensures
      SubmitTotal(|entries|, PayloadSum(entries), CodecSum(entries), LargestCodec(entries))
      >= COMMAND_BASE + 2 * (BytesOf(entries) + 81 * |entries|)
  {
    hide Allowance;
    BytesCovered(entries);
    AllowanceMonotone(PayloadSum(entries), PayloadSum(entries));
    AllowanceMonotone(64 * |entries|, 64 * |entries|);
    AllowanceMonotone(|entries|, |entries|);
    AllowanceMonotone(16 * |entries|, 16 * |entries|);
  }

  lemma {:induction false} BytesCovered(entries: seq<Sizes>)
    ensures 2 * PayloadSum(entries) + CodecSum(entries) >= 2 * BytesOf(entries)
  {
    hide Allowance;
    if entries != [] {
      BytesCovered(entries[..|entries| - 1]);
      AllowanceMonotone(entries[|entries| - 1].codec, entries[|entries| - 1].codec);
    }
  }

  /** And so is a lookup for its identities and statuses. */
  lemma LookupCovers(count: nat)
    ensures LookupTotal(count) >= COMMAND_BASE + 2 * (24 * count + 40 * count)
  {
    AllowanceMonotone(24 * count, 24 * count);
    AllowanceMonotone(40 * count, 40 * count);
    hide Allowance;
  }

  lemma NoCharge()
    ensures SubmitTotal(0, 0, 0, 0) == COMMAND_BASE
  {
  }

  /** Neither is a legal acknowledgement, lookup, release or retirement, nor the group it goes in. */
  lemma OthersFit(c: Config, tokens: nat, ids: nat)
    requires Accepted(c) && tokens <= c.ackItems && ids <= c.lookupItems
    ensures 256 + 128 * tokens <= c.progressRetained && 384 <= c.progressRetained
    ensures LookupTotal(ids) <= c.ordinaryRetained
    ensures tokens <= c.groupOperations && 56 * tokens <= c.groupEncoded && 1 <= c.groupOperations && 24 <= c.groupEncoded
  {
    AllowanceMonotone(24 * ids, 24 * c.lookupItems);
    AllowanceMonotone(40 * ids, 40 * c.lookupItems);
  }

  /** A stored entry can always be delivered into an empty delivery buffer. */
  lemma DeliveryFits(c: Config, payload: nat, codec: nat)
    requires Accepted(c) && payload <= c.maxPayload && codec <= c.maxCodec
    ensures DeliveryScratch(payload, codec) <= c.readScratch
    ensures Allowance(payload) + Allowance(codec) + 256 <= c.deliveryRetained
  {
    hide PoolsRelated, GroupRelated, LargestOf;
    AllowanceMonotone(payload, c.maxPayload);
    AllowanceMonotone(codec, c.maxCodec);
    SourceMonotone(payload, c.maxPayload);
    SourceMonotone(codec, c.maxCodec);
    hide Allowance, SourceBuffer;
  }

  lemma PagesMonotone(a: nat, b: nat)
    requires a <= b
    ensures (a + 8191) / 8192 <= (b + 8191) / 8192
  {
  }

  lemma SourceMonotone(a: nat, b: nat)
    requires a <= b
    ensures SourceBuffer(a) <= SourceBuffer(b)
  {
    hide Allowance;
    AllowanceMonotone(a, b);
    PagesMonotone(a, b);
  }

  /** The running sums over the first `i` entries. */
  ghost predicate Summed(entries: seq<Sizes>, i: nat, encoded: nat, payload: nat, codecs: nat, largest: nat) {
    && i <= |entries|
    && encoded == EncodedSum(entries[..i]) && payload == PayloadSum(entries[..i])
    && codecs == CodecSum(entries[..i]) && largest == LargestCodec(entries[..i])
  }

  lemma SummedStep(entries: seq<Sizes>, i: nat, encoded: nat, payload: nat, codecs: nat, largest: nat)
    requires Summed(entries, i, encoded, payload, codecs, largest) && i < |entries|
    ensures
      var e := entries[i];
      Summed(entries, i + 1, encoded + ENTRY_BASE + e.codec + e.payload, payload + e.payload,
             codecs + Allowance(e.codec), Max(largest, Allowance(e.codec)))
    ensures encoded + ENTRY_BASE + entries[i].codec + entries[i].payload <= EncodedSum(entries)
  {
    assert entries[..i + 1][..i] == entries[..i];
    EncodedMonotone(entries, i + 1);
    hide Allowance;
  }

  lemma SummedEnd(c: Config, entries: seq<Sizes>, encoded: nat, payload: nat, codecs: nat, largest: nat)
    requires Accepted(c) && Summed(entries, |entries|, encoded, payload, codecs, largest)
    requires |entries| <= c.submitItems && encoded <= c.submitEncoded
    requires forall i | 0 <= i < |entries| :: entries[i].codec <= c.maxCodec && entries[i].payload <= c.maxPayload
    requires forall i, j | 0 <= i < j < |entries| :: entries[i].id != entries[j].id
    ensures LegalBatch(c, entries) && codecs <= 256 * 144 && largest <= 144 && payload <= MAX_INT
    ensures payload == PayloadSum(entries) && codecs == CodecSum(entries) && largest == LargestCodec(entries)
    ensures SubmitTotal(|entries|, payload, codecs, largest) <= c.ordinaryRetained <= MAX_U64
  {
    assert entries[..|entries|] == entries;
    Ceilings(c);
    SumsBounded(c, entries);
    CodecsBounded(c, |entries|);
    SubmissionFits(c, entries);
    hide Allowance, SubmitTotal, Accepted;
  }

  /** The front check of a submission: running sums, each step checked, and the charge at the end. */
  method ValidateSubmit(c: Config, entries: seq<Sizes>) returns (r: Checked)
    requires Accepted(c)
    ensures r.Ok? <==> LegalBatch(c, entries)
    ensures r.Ok? ==> r.value == SubmitTotal(|entries|, PayloadSum(entries), CodecSum(entries), LargestCodec(entries))
    ensures r.Ok? ==> r.value <= c.ordinaryRetained
  {
    Ceilings(c);
    if |entries| > c.submitItems {
      return Refused;
    }
    hide Accepted, Summed, Allowance, SubmitTotal, EncodedSum, PayloadSum, CodecSum, LargestCodec;
    var encoded: nat, payload: nat, codecs: nat, largest: nat := 0, 0, 0, 0;
    NothingSummed(entries);
    for i := 0 to |entries|
      invariant Summed(entries, i, encoded, payload, codecs, largest) && encoded <= c.submitEncoded
      invariant forall j | 0 <= j < i :: entries[j].codec <= c.maxCodec && entries[j].payload <= c.maxPayload
      invariant forall j, k | 0 <= j < k < i :: entries[j].id != entries[k].id
    {
      var e := entries[i];
      if e.codec > c.maxCodec || e.payload > c.maxPayload {
        return Refused;
      }
      SummedStep(entries, i, encoded, payload, codecs, largest);
      if encoded + ENTRY_BASE + e.codec + e.payload > c.submitEncoded {
        return Refused;
      }
      encoded := encoded + ENTRY_BASE + e.codec + e.payload;
      payload := payload + e.payload;
      codecs := codecs + Allowance(e.codec);
      largest := Max(largest, Allowance(e.codec));
      var repeated := Repeated(entries, i);
      if repeated {
        return Refused;
      }
    }
    SummedEnd(c, entries, encoded, payload, codecs, largest);
    r := SubmitCharge(|entries|, payload, codecs, largest);
  }

  lemma NothingSummed(entries: seq<Sizes>)
    ensures Summed(entries, 0, 0, 0, 0, 0)
  {
    assert entries[..0] == [];
  }

  method Repeated(entries: seq<Sizes>, i: nat) returns (repeated: bool)
    requires i < |entries|
    ensures repeated <==> exists j :: 0 <= j < i && entries[j].id == entries[i].id
  {
    for previous := 0 to i
      invariant forall j | 0 <= j < previous :: entries[j].id != entries[i].id
    {
      if entries[previous].id == entries[i].id {
        return true;
      }
    }
    return false;
  }

  lemma CodecsBounded(c: Config, n: nat)
    requires WithinCeilings(c) && n <= 256
    ensures n * Allowance(c.maxCodec) <= 256 * 144 && Allowance(c.maxCodec) <= 144
  {
    AllowanceMonotone(c.maxCodec, 64);
    Scale(n, 256, Allowance(c.maxCodec));
  }

  lemma {:induction false} EncodedMonotone(entries: seq<Sizes>, i: nat)
    requires i <= |entries|
    ensures EncodedSum(entries[..i]) <= EncodedSum(entries)
  {
    if i < |entries| {
      EncodedMonotone(entries[..|entries| - 1], i);
      assert entries[..|entries| - 1][..i] == entries[..i];
    } else {
      assert entries[..i] == entries;
    }
  }
}
