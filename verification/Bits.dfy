/** Bits of machine words: a u8 is a bv8 and a u64 a bv64. Bit 0 is the least significant one. */
module Bits {

  type Byte = bv8

  // Machine integers and mathematical ones

  lemma CountUp(p: bv8)
    requires p < 0xFF
    ensures (p + 1) as int == p as int + 1
  {}

  lemma SameInt(p: bv8, q: bv8)
    requires p as int == q as int
    ensures p == q
  {}

  lemma LessInt(p: bv8, q: bv8)
    ensures (p < q) == (p as int < q as int)
  {}

  /** n as a machine integer, for use as a shift amount. */
  function Pos(n: nat): bv8 {
    if n == 0 then 0 else Pos(n - 1) + 1
  }

  lemma {:induction false} PosByte(n: nat)
    requires n < 256
    ensures Pos(n) as int == n
  {
    if n > 0 {
      PosByte(n - 1);
      LessInt(Pos(n - 1), 0xFF);
      CountUp(Pos(n - 1));
    }
  }

  lemma PosInt(n: nat)
    requires n <= 64
    ensures Pos(n) as int == n
    ensures Pos(n) <= 64
    ensures n < 64 ==> Pos(n) < 64
    ensures n < 8 ==> Pos(n) < 8
  {
    PosByte(n);
    LessInt(64, Pos(n));
    LessInt(Pos(n), 64);
    LessInt(Pos(n), 8);
  }

  lemma PosOf(p: bv8)
    requires p <= 64
    ensures p as int <= 64 && Pos(p as int) == p
  {
    LessInt(64, p);
    PosInt(p as int);
    SameInt(Pos(p as int), p);
  }

  lemma {:induction false} PosAdd(n: nat, m: nat)
    ensures Pos(n + m) == Pos(n) + Pos(m)
  {
    if m > 0 {
      PosAdd(n, m - 1);
    }
  }

  lemma PosOrder(n: nat, m: nat)
    requires n <= 64 && m <= 64
    ensures (Pos(n) < Pos(m)) == (n < m)
  {
    PosInt(n);
    PosInt(m);
    LessInt(Pos(n), Pos(m));
  }

  /** Machine arithmetic on positions inside a word agrees with mathematical arithmetic. */
  lemma PosLeft(n: nat, m: nat)
    requires n < 64 && m < 64
    ensures Pos(n) < 64 && Pos(m) < 64
    ensures (Pos(n) >= Pos(m)) == (n >= m)
    ensures n >= m ==> Pos(n) - Pos(m) == Pos(n - m)
  {
    PosBound(n);
    PosBound(m);
    PosOrder(n, m);
    if n >= m {
      PosAdd(n - m, m);
    }
  }

  lemma PosRight(n: nat, m: nat)
    requires n < 64 && m < 64
    ensures Pos(n) < 64 && Pos(m) < 64
    ensures Pos(n) + Pos(m) < 64 <==> n + m < 64
    ensures n + m < 64 ==> Pos(n) + Pos(m) == Pos(n + m)
  {
    PosBound(n);
    PosBound(m);
    PosAdd(n, m);
    if n + m < 64 {
      PosBound(n + m);
    } else {
      PosLeft(63, m);
      PosOrder(63 - m, n);
      Pos63();
      NoSum(Pos(n), Pos(m));
    }
  }

  lemma Pos63()
    ensures Pos(63) == 63
  {
    PosOf(63);
  }

  lemma NoSum(p: bv8, s: bv8)
    requires p < 64 && s < 64 && 63 - s < p
    ensures !(p + s < 64)
  {}

  lemma PosBound(n: nat)
    requires n < 64
    ensures Pos(n) < 64
    ensures n < 8 ==> Pos(n) < 8
  {
    PosInt(n);
  }

  predicate WordAt(w: bv64, p: bv8)
    requires p < 64
  {
    (w >> p) & 1 == 1
  }

  predicate ByteAt(b: Byte, p: bv8)
    requires p < 8
  {
    (b >> p) & 1 == 1
  }

  predicate WordBit(w: bv64, n: nat) {
    n < 64 && (PosBound(n); WordAt(w, Pos(n)))
  }

  predicate ByteBit(b: Byte, n: nat) {
    n < 8 && (PosBound(n); ByteAt(b, Pos(n)))
  }

  // The bitwise operators, under names of their own so that proofs can treat them as unknown functions

  function XorOf(x: bv64, y: bv64): bv64 {
    x ^ y
  }

  function OrOf(x: bv64, y: bv64): bv64 {
    x | y
  }

  // Bit operations at a machine position

  lemma XorAt(x: bv64, y: bv64, p: bv8)
    requires p < 64
    ensures WordAt(XorOf(x, y), p) == (WordAt(x, p) != WordAt(y, p))
  {
    hide WordAt;
    XorBits(x, y, p);
  }

  lemma XorBits(x: bv64, y: bv64, p: bv8)
    requires p < 64
    ensures WordAt(x ^ y, p) == (WordAt(x, p) != WordAt(y, p))
  {}

  lemma OrAt(x: bv64, y: bv64, p: bv8)
    requires p < 64
    ensures WordAt(OrOf(x, y), p) == (WordAt(x, p) || WordAt(y, p))
  {
    hide WordAt;
    OrBits(x, y, p);
  }

  lemma OrBits(x: bv64, y: bv64, p: bv8)
    requires p < 64
    ensures WordAt(x | y, p) == (WordAt(x, p) || WordAt(y, p))
  {}

  function ShiftLeft(w: bv64, s: bv8): bv64
    requires s < 64
  {
    w << s
  }

  function ShiftRight(w: bv64, s: bv8): bv64
    requires s < 64
  {
    w >> s
  }

  lemma LeftAt(x: bv64, s: bv8, p: bv8)
    requires p < 64 && s < 64
    ensures WordAt(ShiftLeft(x, s), p) == (p >= s && WordAt(x, p - s))
  {
    hide WordAt;
    LeftWord(x, s, p);
  }

  lemma LeftWord(x: bv64, s: bv8, p: bv8)
    requires p < 64 && s < 64
    ensures WordAt(x << s, p) == (p >= s && WordAt(x, p - s))
  {
    LeftBits(x, s, p);
  }

  lemma LeftBits(x: bv64, s: bv8, p: bv8)
    requires p < 64 && s < 64
    ensures ((x << s) >> p) & 1 == if p >= s then (x >> (p - s)) & 1 else 0
  {}

  lemma RightAt(x: bv64, s: bv8, p: bv8)
    requires p < 64 && s < 64
    ensures WordAt(ShiftRight(x, s), p) == (p + s < 64 && WordAt(x, p + s))
  {
    hide WordAt;
    RightWord(x, s, p);
  }

  lemma RightWord(x: bv64, s: bv8, p: bv8)
    requires p < 64 && s < 64
    ensures WordAt(x >> s, p) == (p + s < 64 && WordAt(x, p + s))
  {
    RightBits(x, s, p);
  }

  lemma RightBits(x: bv64, s: bv8, p: bv8)
    requires p < 64 && s < 64
    ensures ((x >> s) >> p) & 1 == if p + s < 64 then (x >> (p + s)) & 1 else 0
  {}

  lemma WidenAt(b: Byte, p: bv8)
    requires p < 64
    ensures WordAt(b as bv64, p) == (p < 8 && ByteAt(b, p))
  {}

  lemma LowByteAt(w: bv64, p: bv8)
    requires p < 8
    ensures ByteAt((w & 0xFF) as bv8, p) == WordAt(w, p)
  {}

  lemma Low16At(w: bv64, p: bv8)
    requires p < 64
    ensures WordAt(w & 0xFFFF, p) == (p < 16 && WordAt(w, p))
  {}

  // Bit operations at a mathematical position

  lemma ZeroBits(n: nat)
    ensures !WordBit(0, n) && !ByteBit(0, n)
  {
    if n < 64 {
      PosInt(n);
      assert ((0 as bv64) >> Pos(n)) & 1 == 0;
      if n < 8 {
        assert ((0 as bv8) >> Pos(n)) & 1 == 0;
      }
    }
  }

  lemma Xor(x: bv64, y: bv64, n: nat)
    ensures WordBit(XorOf(x, y), n) == (WordBit(x, n) != WordBit(y, n))
  {
    hide WordAt, XorOf;
    if n < 64 {
      PosInt(n);
      XorAt(x, y, Pos(n));
    }
  }

  lemma Or(x: bv64, y: bv64, n: nat)
    ensures WordBit(OrOf(x, y), n) == (WordBit(x, n) || WordBit(y, n))
  {
    hide WordAt, OrOf;
    if n < 64 {
      PosInt(n);
      OrAt(x, y, Pos(n));
    }
  }

  predicate IsSet(w: bv64, k: bv8)
    requires k < 64
  {
    (w >> k) % 2 == 1
  }

  lemma Test(w: bv64, k: bv8)
    requires k < 64
    ensures k as int < 64
    ensures IsSet(w, k) == WordBit(w, k as int)
  {
    PosOf(k);
    LessInt(k, 64);
    assert (w >> k) % 2 == (w >> k) & 1;
  }

  lemma Left(x: bv64, m: nat, n: nat)
    requires m < 64 && n < 64
    ensures Pos(m) < 64
    ensures WordBit(ShiftLeft(x, Pos(m)), n) == (n >= m && WordBit(x, n - m))
  {
    hide WordAt, Pos, ShiftLeft;
    PosLeft(n, m);
    LeftAt(x, Pos(m), Pos(n));
  }

  lemma Right(x: bv64, m: nat, n: nat)
    requires m < 64 && n < 64
    ensures Pos(m) < 64
    ensures WordBit(ShiftRight(x, Pos(m)), n) == WordBit(x, n + m)
  {
    hide WordAt, Pos, ShiftRight;
    PosRight(n, m);
    RightAt(x, Pos(m), Pos(n));
  }

  lemma Widen(b: Byte, n: nat)
    ensures WordBit(b as bv64, n) == ByteBit(b, n)
  {
    hide WordAt, ByteAt;
    if n < 64 {
      PosInt(n);
      WidenAt(b, Pos(n));
      LessInt(Pos(n), 8);
    }
  }

  lemma LowByte(w: bv64, n: nat)
    requires n < 8
    ensures ByteBit((w & 0xFF) as bv8, n) == WordBit(w, n)
  {
    hide WordAt, ByteAt;
    PosInt(n);
    LowByteAt(w, Pos(n));
  }

  lemma Low16(w: bv64, n: nat)
    ensures WordBit(w & 0xFFFF, n) == (n < 16 && WordBit(w, n))
  {
    hide WordAt;
    if n < 64 {
      PosInt(n);
      Low16At(w, Pos(n));
      LessInt(Pos(n), 16);
    }
  }
}
