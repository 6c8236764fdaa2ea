/**
  Runs of bytes and the numbers they store. Instructions are read from and written
  to a byte stream in one byte order, chosen by the caller: the leading 16-bit word
  and the 2- or 4-byte value that may follow it use the same order.
*/
module BonjourBytes {
  import opened BonjourFormat

  type Byte = b: nat | b < 0x100

  datatype ByteOrder = BigEndian | LittleEndian

  /** The elements of s in the opposite order. */
  function Reverse<T>(s: seq<T>): (r: seq<T>)
    ensures |r| == |s|
    ensures forall i | 0 <= i < |s| :: r[i] == s[|s| - 1 - i]
  {
    if s == [] then [] else Reverse(s[1..]) + [s[0]]
  }

  lemma ReverseReverse<T>(s: seq<T>)
    ensures Reverse(Reverse(s)) == s
  {
  }

  /** The number a run of bytes stores, most significant byte first. */
  function BigEndianValue(bs: seq<Byte>): (v: nat)
    ensures v < Pow2(8 * |bs|)
  {
    if bs == [] then 0
    else
      var n := |bs| - 1;
      Pow2Plus8(8 * n);
      BigEndianValue(bs[..n]) * 0x100 + bs[n]
  }

  /** The n bytes that store v, most significant byte first. */
  function BigEndianBytes(v: nat, n: nat): (bs: seq<Byte>)
    requires v < Pow2(8 * n)
    ensures |bs| == n
    ensures BigEndianValue(bs) == v
  {
    if n == 0 then []
    else
      Pow2Plus8(8 * (n - 1));
      var bs := BigEndianBytes(v / 0x100, n - 1) + [v % 0x100];
      assert bs[..n - 1] == BigEndianBytes(v / 0x100, n - 1);
      bs
  }

  lemma {:induction false} BigEndianBytesOfValue(bs: seq<Byte>)
    ensures BigEndianBytes(BigEndianValue(bs), |bs|) == bs
  {
    if bs != [] {
      var n := |bs| - 1;
      var v := BigEndianValue(bs);
      BigEndianBytesOfValue(bs[..n]);
      assert v / 0x100 == BigEndianValue(bs[..n]) && v % 0x100 == bs[n];
      assert bs == bs[..n] + [bs[n]];
    }
  }

  /** The number a run of bytes stores in the given byte order. */
  function ValueOf(bs: seq<Byte>, order: ByteOrder): (v: nat)
    ensures v < Pow2(8 * |bs|)
  {
    match order
    case BigEndian => BigEndianValue(bs)
    case LittleEndian => BigEndianValue(Reverse(bs))
  }

  /** The n bytes that store v in the given byte order. */
  function BytesOf(v: nat, n: nat, order: ByteOrder): (bs: seq<Byte>)
    requires v < Pow2(8 * n)
    ensures |bs| == n
    ensures ValueOf(bs, order) == v
  {
    match order
    case BigEndian => BigEndianBytes(v, n)
    case LittleEndian => ReverseReverse(BigEndianBytes(v, n)); Reverse(BigEndianBytes(v, n))
  }

  /** Writing back the number a run of bytes stores gives the same bytes. */
  lemma BytesOfValue(bs: seq<Byte>, order: ByteOrder)
    ensures BytesOf(ValueOf(bs, order), |bs|, order) == bs
  {
    match order
    case BigEndian =>
      BigEndianBytesOfValue(bs);
    case LittleEndian =>
      BigEndianBytesOfValue(Reverse(bs));
      ReverseReverse(bs);
  }

  /** The two byte orders of a 16-bit word: which byte holds the high eight bits. */
  lemma WordByteOrder(bs: seq<Byte>)
    requires |bs| == 2
    ensures ValueOf(bs, BigEndian) == bs[0] as nat * 0x100 + bs[1]
    ensures ValueOf(bs, LittleEndian) == bs[1] as nat * 0x100 + bs[0]
  {
    TwoBytes(bs);
    TwoBytes(Reverse(bs));
  }

  lemma TwoBytes(bs: seq<Byte>)
    requires |bs| == 2
    ensures BigEndianValue(bs) == bs[0] as nat * 0x100 + bs[1]
  {
    assert bs[..1][..0] == [];
    assert BigEndianValue(bs[..1]) == bs[0];
  }

  /** The two parts of a run of bytes placed between two others can be cut out again. */
  lemma SlicesOfConcat(before: seq<Byte>, head: seq<Byte>, tail: seq<Byte>, after: seq<Byte>)
    ensures var bytes := before + (head + tail) + after;
      && bytes[|before|..|before| + |head|] == head
      && bytes[|before| + |head|..|before| + |head| + |tail|] == tail
  {
    var bytes := before + (head + tail) + after;
    assert bytes[|before|..|before| + |head|] == head;
    assert bytes[|before| + |head|..|before| + |head| + |tail|] == tail;
  }

  /** A slice is the two slices it splits into. */
  lemma SliceSplit(bytes: seq<Byte>, i: nat, j: nat, k: nat)
    requires i <= j <= k <= |bytes|
    ensures bytes[i..k] == bytes[i..j] + bytes[j..k]
  {
  }
}
