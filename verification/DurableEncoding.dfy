/** Keys and tokens as bytes: fixed-width big-endian numbers, so that comparing bytes compares keys. */
module DurableEncoding {
  import opened DurableTables

  type Byte = b: int | 0 <= b < 256

  function Power(width: nat): nat {
    if width == 0 then 1 else 256 * Power(width - 1)
  }

  function Encode(value: nat, width: nat): (bytes: seq<Byte>)
    ensures |bytes| == width
  {
    if width == 0 then [] else Encode(value / 256, width - 1) + [value % 256]
  }

  function Decode(bytes: seq<Byte>): nat {
    if bytes == [] then 0 else 256 * Decode(bytes[..|bytes| - 1]) + bytes[|bytes| - 1]
  }

  lemma {:induction false} DecodeEncode(value: nat, width: nat)
    requires value < Power(width)
    ensures Decode(Encode(value, width)) == value
  {
    if width > 0 {
      DecodeEncode(value / 256, width - 1);
      assert Encode(value, width)[..width - 1] == Encode(value / 256, width - 1);
    }
  }

  lemma {:induction false} EncodeDecode(bytes: seq<Byte>)
    ensures Decode(bytes) < Power(|bytes|) && Encode(Decode(bytes), |bytes|) == bytes
  {
    if bytes != [] {
      EncodeDecode(bytes[..|bytes| - 1]);
    }
  }

  // ---------------------------------------------------------------------------------------
  // Byte order

  /** The order of byte strings of one length, as the database compares keys. */
  predicate Less(a: seq<Byte>, b: seq<Byte>)
    requires |a| == |b|
  {
    a != [] && (a[0] < b[0] || (a[0] == b[0] && Less(a[1..], b[1..])))
  }

  lemma {:induction false} LessConcat(a: seq<Byte>, b: seq<Byte>, u: seq<Byte>, v: seq<Byte>)
    requires |a| == |b| && |u| == |v|
    ensures Less(a + u, b + v) <==> Less(a, b) || (a == b && Less(u, v))
  {
    if a == [] {
      assert a + u == u && b + v == v;
    } else {
      LessConcat(a[1..], b[1..], u, v);
      assert (a + u)[1..] == a[1..] + u && (b + v)[1..] == b[1..] + v;
      assert a[0] == b[0] && a[1..] == b[1..] ==> a == b by {
        assert a == [a[0]] + a[1..] && b == [b[0]] + b[1..];
      }
    }
  }

  /** Big-endian order is numeric order. */
  lemma {:induction false} EncodeOrder(x: nat, y: nat, width: nat)
    requires x < Power(width) && y < Power(width)
    ensures Less(Encode(x, width), Encode(y, width)) <==> x < y
    ensures Encode(x, width) == Encode(y, width) <==> x == y
  {
    DecodeEncode(x, width);
    DecodeEncode(y, width);
    if width > 0 {
      EncodeOrder(x / 256, y / 256, width - 1);
      LessConcat(Encode(x / 256, width - 1), Encode(y / 256, width - 1), [x % 256], [y % 256]);
    }
  }

  // ---------------------------------------------------------------------------------------
  // Identities and tokens

  predicate Fits(id: ID) {
    id.producer < Power(16) && id.sequence < Power(8)
  }

  function EncodeID(id: ID): (key: seq<Byte>)
    ensures |key| == 24
  {
    Encode(id.producer, 16) + Encode(id.sequence, 8)
  }

  /** Nothing when the key has the wrong length. */
  function DecodeID(key: seq<Byte>): (ids: seq<ID>)
    ensures |key| == 24 <==> ids != []
  {
    if |key| != 24 then [] else [ID(Decode(key[..16]), Decode(key[16..]))]
  }

  lemma DecodeEncodeID(id: ID)
    requires Fits(id)
    ensures DecodeID(EncodeID(id)) == [id]
  {
    DecodeEncode(id.producer, 16);
    DecodeEncode(id.sequence, 8);
    assert EncodeID(id)[..16] == Encode(id.producer, 16) && EncodeID(id)[16..] == Encode(id.sequence, 8);
  }

  lemma EncodeDecodeID(key: seq<Byte>)
    requires |key| == 24
    ensures Fits(DecodeID(key)[0]) && EncodeID(DecodeID(key)[0]) == key
  {
    EncodeDecode(key[..16]);
    EncodeDecode(key[16..]);
    assert key[..16] + key[16..] == key;
  }

  /** Keys compare by producer, then by sequence. */
  lemma KeyOrder(a: ID, b: ID)
    requires Fits(a) && Fits(b)
    ensures Less(EncodeID(a), EncodeID(b)) <==>
      a.producer < b.producer || (a.producer == b.producer && a.sequence < b.sequence)
    ensures EncodeID(a) == EncodeID(b) <==> a == b
  {
    EncodeOrder(a.producer, b.producer, 16);
    EncodeOrder(a.sequence, b.sequence, 8);
    LessConcat(Encode(a.producer, 16), Encode(b.producer, 16), Encode(a.sequence, 8), Encode(b.sequence, 8));
    DecodeEncodeID(a);
    DecodeEncodeID(b);
  }

  /** The key range a retirement or a cleanup queries holds exactly the producer's identities up to the
      floor. */
  lemma KeyRange(id: ID, floor: ID)
    requires Fits(id) && Fits(floor)
    ensures !Less(EncodeID(id), EncodeID(ID(floor.producer, 0))) && !Less(EncodeID(floor), EncodeID(id)) <==>
      id.producer == floor.producer && id.sequence <= floor.sequence
  {
    assert Power(8) > 0;
    KeyOrder(id, ID(floor.producer, 0));
    KeyOrder(floor, id);
  }

  predicate FitsToken(token: Token) {
    token.uuid < Power(16) && token.epoch < Power(8) && Fits(token.id) && token.attempt < Power(8)
  }

  function EncodeToken(token: Token): (bytes: seq<Byte>)
    ensures |bytes| == 56
  {
    Encode(token.uuid, 16) + Encode(token.epoch, 8) + EncodeID(token.id) + Encode(token.attempt, 8)
  }

  /** The slices of a token's bytes that the acknowledgement path reads, and that two tokens with the same
      bytes are the same token. */
  lemma TokenFields(token: Token, other: Token)
    requires FitsToken(token) && FitsToken(other)
    ensures
      var b := EncodeToken(token);
      && Decode(b[..16]) == token.uuid && Decode(b[16..24]) == token.epoch
      && DecodeID(b[24..48]) == [token.id] && Decode(b[48..]) == token.attempt
    ensures EncodeToken(token) == EncodeToken(other) <==> token == other
  {
    OneToken(token);
    OneToken(other);
  }

  lemma OneToken(token: Token)
    requires FitsToken(token)
    ensures
      var b := EncodeToken(token);
      && Decode(b[..16]) == token.uuid && Decode(b[16..24]) == token.epoch
      && DecodeID(b[24..48]) == [token.id] && Decode(b[48..]) == token.attempt
  {
    var b := EncodeToken(token);
    DecodeEncode(token.uuid, 16);
    DecodeEncode(token.epoch, 8);
    DecodeEncodeID(token.id);
    DecodeEncode(token.attempt, 8);
    assert b[..16] == Encode(token.uuid, 16) && b[16..24] == Encode(token.epoch, 8);
    assert b[24..48] == EncodeID(token.id) && b[48..] == Encode(token.attempt, 8);
  }
}
