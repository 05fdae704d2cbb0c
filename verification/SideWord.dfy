/** The packed state word of one wait side: pollers in bits 0-30, parked calls in bits 32-62 and the
    closed flag in bit 63 of an unsigned 64-bit integer. */
module SideWord {

  const ONE_POLLER := 1
  const ONE_PARKED := 0x1_0000_0000
  const CLOSED_FLAG := 0x8000_0000_0000_0000
  const COUNT_LIMIT := 0x8000_0000
  const U64 := 0x1_0000_0000_0000_0000

  function PollersOf(word: nat): nat {
    word % 0x8000_0000
  }

  function ParkedOf(word: nat): nat {
    (word / 0x1_0000_0000) % 0x8000_0000
  }

  predicate ClosedOf(word: nat) {
    (word / 0x8000_0000_0000_0000) % 2 == 1
  }

  predicate NeedsWake(word: nat) {
    PollersOf(word) == 0 && ParkedOf(word) > 0
  }

  /** The word with these fields and bit 31 clear. */
  function Word(pollers: nat, parked: nat, closed: bool): nat {
    pollers + parked * 0x1_0000_0000 + if closed then 0x8000_0000_0000_0000 else 0
  }

  predicate Packed(word: nat) {
    word == Word(PollersOf(word), ParkedOf(word), ClosedOf(word))
  }

  lemma Low31(word: nat, high: nat, low: nat)
    requires word == high * 0x8000_0000 + low && low < 0x8000_0000
    ensures word % 0x8000_0000 == low
  {
  }

  lemma High32(word: nat, high: nat, low: nat)
    requires word == high * 0x1_0000_0000 + low && low < 0x1_0000_0000
    ensures word / 0x1_0000_0000 == high
  {
  }

  lemma High63(word: nat, high: nat, low: nat)
    requires word == high * 0x8000_0000_0000_0000 + low && low < 0x8000_0000_0000_0000 && high < 2
    ensures (word / 0x8000_0000_0000_0000) % 2 == high
  {
  }

  /** The fields of any word with parked calls and flag in place: the low half is `bit` in bit 31 and the
      pollers below it. */
  lemma Fields(word: nat, pollers: nat, bit: nat, parked: nat, closed: bool)
    requires pollers < COUNT_LIMIT && bit < 2 && parked < COUNT_LIMIT
    requires word == Word(pollers, parked, closed) + bit * 0x8000_0000
    ensures PollersOf(word) == pollers && ParkedOf(word) == parked && ClosedOf(word) == closed && word < U64
  {
    var flag := if closed then 1 else 0;
    var low, high := pollers + bit * 0x8000_0000, parked + flag * 0x8000_0000;
    Low31(word, high * 2 + bit, pollers);
    High32(word, high, low);
    Low31(high, flag, parked);
    High63(word, flag, low + parked * 0x1_0000_0000);
  }

  lemma Smaller(pollers: nat, parked: nat, closed: bool)
    ensures PollersOf(Word(pollers, parked, closed)) < COUNT_LIMIT && ParkedOf(Word(pollers, parked, closed)) < COUNT_LIMIT
  {
  }

  /** The fields of a word are the ones it was packed from, exactly when both counts are in range. */
  lemma FieldsOfWord(pollers: nat, parked: nat, closed: bool)
    ensures
      pollers < COUNT_LIMIT && parked < COUNT_LIMIT <==>
        && Word(pollers, parked, closed) < U64
        && PollersOf(Word(pollers, parked, closed)) == pollers
        && ParkedOf(Word(pollers, parked, closed)) == parked
        && ClosedOf(Word(pollers, parked, closed)) == closed
  {
    hide PollersOf, ParkedOf, ClosedOf;
    Smaller(pollers, parked, closed);
    if pollers < COUNT_LIMIT && parked < COUNT_LIMIT {
      Fields(Word(pollers, parked, closed), pollers, 0, parked, closed);
    }
  }

  /** Moving `k` counts between the two fields borrows and carries nothing while both stay in range. */
  lemma TransferWord(word: nat, k: int)
    requires Packed(word)
    requires 0 <= PollersOf(word) + k < COUNT_LIMIT && 0 <= ParkedOf(word) - k < COUNT_LIMIT
    ensures word + k - k * ONE_PARKED == Word(PollersOf(word) + k, ParkedOf(word) - k, ClosedOf(word))
    ensures Packed(word + k - k * ONE_PARKED)
    ensures PollersOf(word + k - k * ONE_PARKED) == PollersOf(word) + k
    ensures ParkedOf(word + k - k * ONE_PARKED) == ParkedOf(word) - k
    ensures ClosedOf(word + k - k * ONE_PARKED) == ClosedOf(word)
  {
    InRange(word);
    hide PollersOf, ParkedOf, ClosedOf;
    Fields(word + k - k * ONE_PARKED, PollersOf(word) + k, 0, ParkedOf(word) - k, ClosedOf(word));
  }

  /** A packed word is below the limits. */
  lemma InRange(word: nat)
    requires Packed(word)
    ensures PollersOf(word) < COUNT_LIMIT && ParkedOf(word) < COUNT_LIMIT
  {
    hide ClosedOf;
  }

  /** Registering adds one poller exactly when the count has room; past it the count reads zero. */
  lemma RegisterWord(word: nat)
    requires Packed(word)
    ensures PollersOf(word + ONE_POLLER) == PollersOf(word) + 1 <==> PollersOf(word) < COUNT_LIMIT - 1
    ensures PollersOf(word) == COUNT_LIMIT - 1 ==> PollersOf(word + ONE_POLLER) == 0 && !Packed(word + ONE_POLLER)
    ensures PollersOf(word) < COUNT_LIMIT - 1 ==>
      && Packed(word + ONE_POLLER)
      && ParkedOf(word + ONE_POLLER) == ParkedOf(word) && ClosedOf(word + ONE_POLLER) == ClosedOf(word)
  {
    InRange(word);
    hide PollersOf, ParkedOf, ClosedOf;
    if PollersOf(word) < COUNT_LIMIT - 1 {
      Fields(word + ONE_POLLER, PollersOf(word) + 1, 0, ParkedOf(word), ClosedOf(word));
    } else {
      Fields(word + ONE_POLLER, 0, 1, ParkedOf(word), ClosedOf(word));
    }
  }

  lemma LeaveWord(word: nat)
    requires Packed(word) && PollersOf(word) > 0
    ensures word >= ONE_POLLER && Packed(word - ONE_POLLER)
    ensures PollersOf(word - ONE_POLLER) == PollersOf(word) - 1
    ensures ParkedOf(word - ONE_POLLER) == ParkedOf(word) && ClosedOf(word - ONE_POLLER) == ClosedOf(word)
  {
    InRange(word);
    hide PollersOf, ParkedOf, ClosedOf;
    Fields(word - ONE_POLLER, PollersOf(word) - 1, 0, ParkedOf(word), ClosedOf(word));
  }

  /** Parking past the limit of the parked count carries into the closed flag. */
  lemma ParkOverflow(word: nat)
    requires Packed(word) && !ClosedOf(word) && PollersOf(word) > 0 && ParkedOf(word) == COUNT_LIMIT - 1
    ensures ParkedOf(word - ONE_POLLER + ONE_PARKED) == 0 && ClosedOf(word - ONE_POLLER + ONE_PARKED)
  {
    InRange(word);
    hide PollersOf, ParkedOf, ClosedOf;
    Fields(word - ONE_POLLER + ONE_PARKED, PollersOf(word) - 1, 0, 0, true);
  }

  lemma UnparkWord(word: nat)
    requires Packed(word) && ParkedOf(word) > 0
    ensures word >= ONE_PARKED && Packed(word - ONE_PARKED)
    ensures ParkedOf(word - ONE_PARKED) == ParkedOf(word) - 1
    ensures PollersOf(word - ONE_PARKED) == PollersOf(word) && ClosedOf(word - ONE_PARKED) == ClosedOf(word)
  {
    InRange(word);
    hide PollersOf, ParkedOf, ClosedOf;
    Fields(word - ONE_PARKED, PollersOf(word), 0, ParkedOf(word) - 1, ClosedOf(word));
  }

  lemma CloseWord(word: nat)
    requires Packed(word) && !ClosedOf(word)
    ensures Packed(word + CLOSED_FLAG) && ClosedOf(word + CLOSED_FLAG)
    ensures PollersOf(word + CLOSED_FLAG) == PollersOf(word) && ParkedOf(word + CLOSED_FLAG) == ParkedOf(word)
  {
    InRange(word);
    hide PollersOf, ParkedOf, ClosedOf;
    Fields(word + CLOSED_FLAG, PollersOf(word), 0, ParkedOf(word), true);
  }
}
