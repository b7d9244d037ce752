/**
 Canonical storage of unsigned 64-bit counters.

 Cursors, generations and uptimes are stored as eight big-endian bytes, and SQL
 compares those blobs byte by byte.  The theorems here let every other module
 treat the columns as numbers.
 */
module Uint64 {
  import opened Outcomes

  const MAX_UINT64: nat := 0xFFFF_FFFF_FFFF_FFFF

  type Byte = b: nat | b < 256

  function Power256(n: nat): (p: nat)
    ensures p > 0
  {
    if n == 0 then 1 else 256 * Power256(n - 1)
  }

  function EncodeBytes(value: nat, width: nat): (bytes: seq<Byte>)
    ensures |bytes| == width
  {
    if width == 0 then [] else EncodeBytes(value / 256, width - 1) + [value % 256]
  }

  function DecodeBytes(bytes: seq<Byte>): (value: nat) {
    if bytes == [] then 0 else DecodeBytes(bytes[..|bytes| - 1]) * 256 + bytes[|bytes| - 1]
  }

  function EncodeUint64(value: nat): (bytes: seq<Byte>)
    requires value <= MAX_UINT64
    ensures |bytes| == 8
  {
    EncodeBytes(value, 8)
  }

  /** A stored column of any other width is refused, never reinterpreted. */
  function DecodeUint64(bytes: seq<Byte>): Result<nat> {
    if |bytes| != 8 then Err(InternalError) else Ok(DecodeBytes(bytes))
  }

  /** Blob comparison: the first differing byte decides, then the length. */
  predicate BlobLess(left: seq<Byte>, right: seq<Byte>) {
    if left == [] || right == [] then
      left == [] && right != []
    else if left[0] != right[0] then
      left[0] < right[0]
    else
      BlobLess(left[1..], right[1..])
  }

  lemma {:induction false} EncodeThenDecode(value: nat, width: nat)
    requires value < Power256(width)
    ensures DecodeBytes(EncodeBytes(value, width)) == value
  {
    if width != 0 {
      EncodeThenDecode(value / 256, width - 1);
      assert EncodeBytes(value, width)[..width - 1] == EncodeBytes(value / 256, width - 1);
    }
  }

  lemma {:induction false} DecodeThenEncode(bytes: seq<Byte>)
    ensures DecodeBytes(bytes) < Power256(|bytes|)
    ensures EncodeBytes(DecodeBytes(bytes), |bytes|) == bytes
  {
    if bytes != [] {
      DecodeThenEncode(bytes[..|bytes| - 1]);
    }
  }

  /** Storing a counter and reading it back is the identity, in both directions. */
  lemma Uint64RoundTrip(value: nat, bytes: seq<Byte>)
    requires value <= MAX_UINT64
    ensures DecodeUint64(EncodeUint64(value)) == Ok(value)
    ensures |bytes| == 8 ==> DecodeUint64(bytes).Ok? && DecodeUint64(bytes).value <= MAX_UINT64
                             && EncodeUint64(DecodeUint64(bytes).value) == bytes
    ensures |bytes| != 8 ==> DecodeUint64(bytes).Err?
  {
    Power256Of8();
    EncodeThenDecode(value, 8);
    if |bytes| == 8 {
      DecodeThenEncode(bytes);
    }
  }

  lemma Power256Of8()
    ensures Power256(8) == MAX_UINT64 + 1
  {
    assert Power256(4) == 0x1_0000_0000;
    assert Power256(6) == 0x1_0000_0000_0000;
  }

  lemma {:induction false} BlobLessAtTheEnd(left: seq<Byte>, right: seq<Byte>, x: Byte, y: Byte)
    requires |left| == |right|
    ensures BlobLess(left + [x], right + [y]) <==> BlobLess(left, right) || (left == right && x < y)
  {
    if left != [] {
      assert (left + [x])[1..] == left[1..] + [x];
      assert (right + [y])[1..] == right[1..] + [y];
      BlobLessAtTheEnd(left[1..], right[1..], x, y);
      assert left == right <==> left[0] == right[0] && left[1..] == right[1..] by {
        assert left == [left[0]] + left[1..] && right == [right[0]] + right[1..];
      }
    }
  }

  lemma {:induction false} BlobOrderIsNumeric(a: nat, b: nat, width: nat)
    requires a < Power256(width) && b < Power256(width)
    ensures BlobLess(EncodeBytes(a, width), EncodeBytes(b, width)) <==> a < b
  {
    if width != 0 {
      BlobOrderIsNumeric(a / 256, b / 256, width - 1);
      EncodeThenDecode(a / 256, width - 1);
      EncodeThenDecode(b / 256, width - 1);
      BlobLessAtTheEnd(EncodeBytes(a / 256, width - 1), EncodeBytes(b / 256, width - 1), a % 256, b % 256);
    }
  }

  /** The SQL comparison `column <= ?` on two stored counters is numeric order. */
  lemma Uint64BlobOrder(a: nat, b: nat)
    requires a <= MAX_UINT64 && b <= MAX_UINT64
    ensures BlobLess(EncodeUint64(a), EncodeUint64(b)) <==> a < b
    ensures EncodeUint64(a) == EncodeUint64(b) <==> a == b
  {
    Power256Of8();
    BlobOrderIsNumeric(a, b, 8);
    EncodeThenDecode(a, 8);
    EncodeThenDecode(b, 8);
  }
}
