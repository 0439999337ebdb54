/** Rows of bits packed into bytes, least significant bit first. */
module PackedBits {
  import opened Bits
  import opened Hashes

  /** Bit i of a packed row. */
  predicate RowBit(row: Bytes, i: nat)
    requires i < 8 * |row|
  {
    ByteBit(row[i / 8], i % 8)
  }

  // One byte

  function XorByte(x: Byte, y: Byte): Byte {
    x ^ y
  }

  /** u8::from(on) * x */
  function MaskByte(on: bool, x: Byte): Byte {
    (if on then 1 else 0) * x
  }

  lemma MaskByteValue(on: bool, x: Byte)
    ensures MaskByte(on, x) == if on then x else 0
  {
    assert (1 as Byte) * x == x && (0 as Byte) * x == 0;
  }

  function BitByte(on: bool): Byte {
    if on then 1 else 0
  }

  /** Eight bits as a byte. */
  function PackByte(b: seq<bool>): Byte
    requires |b| == 8
  {
    BitByte(b[0]) | (BitByte(b[1]) << 1) | (BitByte(b[2]) << 2) | (BitByte(b[3]) << 3)
    | (BitByte(b[4]) << 4) | (BitByte(b[5]) << 5) | (BitByte(b[6]) << 6) | (BitByte(b[7]) << 7)
  }

  lemma XorByteAt(x: Byte, y: Byte, p: bv8)
    requires p < 8
    ensures ByteAt(XorByte(x, y), p) == (ByteAt(x, p) != ByteAt(y, p))
  {}

  lemma XorByteBit(x: Byte, y: Byte, n: nat)
    ensures ByteBit(XorByte(x, y), n) == (ByteBit(x, n) != ByteBit(y, n))
  {
    hide ByteAt, XorByte;
    if n < 8 {
      PosBound(n);
      XorByteAt(x, y, Pos(n));
    }
  }

  lemma MaskByteBit(on: bool, x: Byte, n: nat)
    ensures ByteBit(MaskByte(on, x), n) == (on && ByteBit(x, n))
  {
    ZeroBits(n);
    assert (1 as Byte) * x == x && (0 as Byte) * x == 0;
  }

  lemma PackedAt(b0: bool, b1: bool, b2: bool, b3: bool, b4: bool, b5: bool, b6: bool, b7: bool)
    ensures var x := BitByte(b0) | (BitByte(b1) << 1) | (BitByte(b2) << 2) | (BitByte(b3) << 3)
      | (BitByte(b4) << 4) | (BitByte(b5) << 5) | (BitByte(b6) << 6) | (BitByte(b7) << 7);
      ByteAt(x, 0) == b0 && ByteAt(x, 1) == b1 && ByteAt(x, 2) == b2 && ByteAt(x, 3) == b3
      && ByteAt(x, 4) == b4 && ByteAt(x, 5) == b5 && ByteAt(x, 6) == b6 && ByteAt(x, 7) == b7
  {}

  lemma SmallPositions()
    ensures Pos(0) == 0 && Pos(1) == 1 && Pos(2) == 2 && Pos(3) == 3
    ensures Pos(4) == 4 && Pos(5) == 5 && Pos(6) == 6 && Pos(7) == 7
  {}

  lemma PackByteBit(b: seq<bool>, n: nat)
    requires |b| == 8 && n < 8
    ensures ByteBit(PackByte(b), n) == b[n]
  {
    hide ByteAt, Pos, BitByte;
    SmallPositions();
    PosBound(n);
    PackedAt(b[0], b[1], b[2], b[3], b[4], b[5], b[6], b[7]);
  }

  lemma SameByteAt(x: Byte, y: Byte)
    requires ByteAt(x, 0) == ByteAt(y, 0) && ByteAt(x, 1) == ByteAt(y, 1) && ByteAt(x, 2) == ByteAt(y, 2)
    requires ByteAt(x, 3) == ByteAt(y, 3) && ByteAt(x, 4) == ByteAt(y, 4) && ByteAt(x, 5) == ByteAt(y, 5)
    requires ByteAt(x, 6) == ByteAt(y, 6) && ByteAt(x, 7) == ByteAt(y, 7)
    ensures x == y
  {}

  lemma SameByte(x: Byte, y: Byte)
    requires forall n :: 0 <= n < 8 ==> ByteBit(x, n) == ByteBit(y, n)
    ensures x == y
  {
    hide ByteAt, Pos;
    SmallPositions();
    assert ByteBit(x, 0) == ByteBit(y, 0) && ByteBit(x, 1) == ByteBit(y, 1) && ByteBit(x, 2) == ByteBit(y, 2);
    assert ByteBit(x, 3) == ByteBit(y, 3) && ByteBit(x, 4) == ByteBit(y, 4) && ByteBit(x, 5) == ByteBit(y, 5);
    assert ByteBit(x, 6) == ByteBit(y, 6) && ByteBit(x, 7) == ByteBit(y, 7);
    SameByteAt(x, y);
  }

  // Rows

  function XorBytes(a: Bytes, b: Bytes): (c: Bytes)
    requires |a| == |b|
    ensures |c| == |a|
  {
    seq(|a|, i requires 0 <= i < |a| => XorByte(a[i], b[i]))
  }

  function Mask(on: bool, a: Bytes): (c: Bytes)
    ensures |c| == |a|
  {
    seq(|a|, i requires 0 <= i < |a| => MaskByte(on, a[i]))
  }

  function Pack(bits: seq<bool>): (c: Bytes)
    requires |bits| % 8 == 0
    ensures |c| == |bits| / 8
  {
    seq(|bits| / 8, m requires 0 <= m < |bits| / 8 => PackByte(bits[8 * m..8 * m + 8]))
  }

  lemma XorRowBit(a: Bytes, b: Bytes, i: nat)
    requires |a| == |b| && i < 8 * |a|
    ensures RowBit(XorBytes(a, b), i) == (RowBit(a, i) != RowBit(b, i))
  {
    hide ByteBit, XorByte;
    XorByteBit(a[i / 8], b[i / 8], i % 8);
  }

  lemma MaskRowBit(on: bool, a: Bytes, i: nat)
    requires i < 8 * |a|
    ensures RowBit(Mask(on, a), i) == (on && RowBit(a, i))
  {
    hide ByteBit, MaskByte;
    MaskByteBit(on, a[i / 8], i % 8);
  }

  lemma PackRowBit(bits: seq<bool>, i: nat)
    requires |bits| % 8 == 0 && i < |bits|
    ensures RowBit(Pack(bits), i) == bits[i]
  {
    hide ByteBit, PackByte;
    PackByteBit(bits[8 * (i / 8)..8 * (i / 8) + 8], i % 8);
  }

  lemma SameRow(a: Bytes, b: Bytes)
    requires |a| == |b|
    requires forall i :: 0 <= i < 8 * |a| ==> RowBit(a, i) == RowBit(b, i)
    ensures a == b
  {
    hide ByteBit;
    forall m | 0 <= m < |a| ensures a[m] == b[m] {
      forall n | 0 <= n < 8 ensures ByteBit(a[m], n) == ByteBit(b[m], n) {
        assert RowBit(a, 8 * m + n) == RowBit(b, 8 * m + n);
      }
      SameByte(a[m], b[m]);
    }
  }

  // XOR as a group operation

  lemma XorSelf(a: Bytes, b: Bytes)
    requires |a| == |b|
    ensures XorBytes(XorBytes(a, b), b) == a
    ensures XorBytes(a, b) == XorBytes(b, a)
  {
  }

  lemma XorRegroup(a: Bytes, b: Bytes, c: Bytes, d: Bytes)
    requires |a| == |b| == |c| == |d|
    ensures XorBytes(XorBytes(a, b), XorBytes(c, d)) == XorBytes(XorBytes(a, c), XorBytes(b, d))
  {
  }

  lemma MaskOff(a: Bytes, b: Bytes)
    requires |a| == |b|
    ensures XorBytes(a, Mask(false, b)) == a && Mask(true, b) == b
  {
    forall i | 0 <= i < |a| ensures XorByte(a[i], MaskByte(false, b[i])) == a[i] && MaskByte(true, b[i]) == b[i] {
      MaskIdentity(a[i], b[i]);
    }
  }

  lemma MaskIdentity(x: Byte, y: Byte)
    ensures XorByte(x, MaskByte(false, y)) == x && MaskByte(true, y) == y
  {}
}
