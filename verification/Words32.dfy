/** 32-bit positions and counters as words of unbounded ghost numbers, and the packed relaxed index. */
module Words32 {

  const CYCLE := 0x1_0000_0000

  type U32 = x: int | 0 <= x < 0x1_0000_0000

  function W(x: nat): U32 {
    x % 0x1_0000_0000
  }

  /** Unsigned subtraction with rollover. */
  function Sub32(a: int, b: int): U32 {
    (a - b) % 0x1_0000_0000
  }

  // ---------------------------------------------------------------------------------------
  // The packed index

  function Pack(pos: U32, cnt: U32): nat {
    pos * 0x1_0000_0000 + cnt
  }

  function UnpackPos(word: nat): nat {
    word / 0x1_0000_0000
  }

  function UnpackCnt(word: nat): nat {
    word % 0x1_0000_0000
  }

  lemma PackRoundTrip(pos: U32, cnt: U32)
    ensures UnpackPos(Pack(pos, cnt)) == pos && UnpackCnt(Pack(pos, cnt)) == cnt
    ensures Pack(pos, cnt) < 0x1_0000_0000_0000_0000
  {
  }

  lemma UnpackRoundTrip(word: nat)
    requires word < 0x1_0000_0000_0000_0000
    ensures UnpackPos(word) < CYCLE && Pack(UnpackPos(word), UnpackCnt(word)) == word
  {
  }

  /** The tail word after one more operation: the counter goes up by one, and the position follows the
      head when that makes the counters meet. */
  function NextTail(tail: nat, head: nat): nat
    requires tail < 0x1_0000_0000_0000_0000 && head < 0x1_0000_0000_0000_0000
  {
    var cnt := Inc(UnpackCnt(tail));
    Pack(if cnt == UnpackCnt(head) then UnpackPos(head) else UnpackPos(tail), cnt)
  }

  /** On ghost numbers: a counter that wraps never carries into the position, and the words meet
      exactly when the counters do, while fewer than a cycle of operations is under way. */
  lemma NextTailExact(tail: nat, cnt: nat, head: nat, headCnt: nat)
    requires cnt < headCnt <= cnt + 0x1_0000_0000
    ensures NextTail(Pack(W(tail), W(cnt)), Pack(W(head), W(headCnt)))
         == Pack(W(if cnt + 1 == headCnt then head else tail), W(cnt + 1))
  {
    hide *;
    PackRoundTrip(W(tail), W(cnt));
    PackRoundTrip(W(head), W(headCnt));
    NextTailFields(W(tail), W(cnt), W(head), W(headCnt));
    NextCount(cnt);
    WordsMeet(cnt + 1, headCnt);
  }

  function Inc(cnt: U32): U32 {
    (cnt + 1) % 0x1_0000_0000
  }

  lemma NextTailFields(tailPos: U32, tailCnt: U32, headPos: U32, headCnt: U32)
    requires Pack(tailPos, tailCnt) < 0x1_0000_0000_0000_0000 && Pack(headPos, headCnt) < 0x1_0000_0000_0000_0000
    ensures NextTail(Pack(tailPos, tailCnt), Pack(headPos, headCnt))
         == Pack(if Inc(tailCnt) == headCnt then headPos else tailPos, Inc(tailCnt))
  {
    PackRoundTrip(tailPos, tailCnt);
    PackRoundTrip(headPos, headCnt);
    hide Pack, UnpackPos, UnpackCnt;
  }

  lemma NextCount(cnt: nat)
    ensures Inc(W(cnt)) == W(cnt + 1)
  {
  }

  lemma WordsMeet(a: nat, b: nat)
    requires a <= b < a + 0x1_0000_0000
    ensures W(a) == W(b) <==> a == b
  {
    Lap(a, b);
  }

  /** Numbers less than a cycle apart have equal words only when they are equal. */
  lemma Lap(a: nat, b: nat)
    requires a <= b < a + 0x1_0000_0000
    ensures Sub32(W(b), W(a)) == b - a
    ensures W(a) == W(b) <==> a == b
  {
  }

  // ---------------------------------------------------------------------------------------
  // Admission

  /** What an admission sees: room for a producer with `lead` the capacity, values for a consumer with
      `lead` zero. */
  function Room(lead: U32, published: U32, head: U32): U32 {
    (lead + published - head) % 0x1_0000_0000
  }

  /** Wrapping admission is exact: as long as the observed position lags by less than a cycle less the
      capacity, the wrapped room is at most the capacity exactly when there is no shortfall, and then it
      is the true room. */
  lemma AdmissionExact(cap: nat, lead: nat, published: nat, head: nat)
    requires cap <= 0x4000_0000 && lead <= cap
    requires -(0x1_0000_0000 - cap) < lead + published - head <= cap
    ensures Room(lead, W(published), W(head)) <= cap <==> lead + published - head >= 0
    ensures lead + published - head >= 0 ==> Room(lead, W(published), W(head)) == lead + published - head
  {
    RoomIs(lead, published, head);
    var v := lead + published - head;
    if v >= 0 {
      assert v % 0x1_0000_0000 == v;
    } else {
      assert v % 0x1_0000_0000 == v + 0x1_0000_0000;
    }
  }

  lemma RoomIs(lead: nat, published: nat, head: nat)
    requires lead < 0x1_0000_0000
    ensures Room(lead, W(published), W(head)) == (lead + published - head) % 0x1_0000_0000
  {
    var a, b := published / 0x1_0000_0000, head / 0x1_0000_0000;
    assert published == a * 0x1_0000_0000 + W(published) && head == b * 0x1_0000_0000 + W(head);
    Whole(lead + W(published) - W(head), a - b);
  }

  lemma Whole(x: int, k: int)
    ensures (x + k * 0x1_0000_0000) % 0x1_0000_0000 == x % 0x1_0000_0000
  {
  }

  /** Positive as a signed 32-bit number. */
  predicate Ahead(x: U32) {
    0 < x < 0x8000_0000
  }
}
