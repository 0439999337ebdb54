/** Multiplication in GF(2)[X] modulo X^208 + X^9 + X^3 + X + 1 on 64-bit limbs. */
module FieldMultiplication {
  import opened Bits
  import opened BinaryPolynomials
  import opened Outcomes

  /** Number of bytes of a field element: OT_SECURITY / 8. */
  const FIELD_BYTES: nat := 26

  /** The number of words of a factor. */
  const T: nat := 4

  datatype FieldError = WrongLength

  /** The polynomial held by little-endian words. */
  function WordsPoly(w: seq<bv64>): Poly
    requires |w| <= 8
  {
    seq(SIZE, k requires 0 <= k < SIZE => k / 64 < |w| && WordBit(w[k / 64], k % 64))
  }

  lemma WordsPolyAt(w: seq<bv64>, j: nat, n: nat)
    requires j < |w| <= 8 && n < 64
    ensures WordsPoly(w)[64 * j + n] == WordBit(w[j], n)
  {
    hide WordBit;
    assert (64 * j + n) / 64 == j && (64 * j + n) % 64 == n;
  }

  /** The polynomial held by little-endian bytes. */
  function BytesPoly(s: seq<Byte>): Poly
    requires |s| <= 64
  {
    seq(SIZE, k requires 0 <= k < SIZE => k / 8 < |s| && ByteBit(s[k / 8], k % 8))
  }

  // Loading and storing

  /** Byte i of a field element at its place inside a word: u64::from(b) << ((i & 7) << 3). */
  function Place(b: Byte, i: nat): bv64 {
    PosBound(8 * (i % 8));
    ShiftLeft(b as bv64, Pos(8 * (i % 8)))
  }

  lemma PlaceBit(b: Byte, i: nat, n: nat)
    requires n < 64
    ensures WordBit(Place(b, i), n) == (n / 8 == i % 8 && ByteBit(b, n % 8))
  {
    hide WordBit, ShiftLeft, Pos;
    Left(b as bv64, 8 * (i % 8), n);
    if n >= 8 * (i % 8) {
      Widen(b, n - 8 * (i % 8));
    }
  }

  /** Byte i of a word: (w >> ((i & 7) << 3)) & 0xFF. */
  function Extract(w: bv64, i: nat): Byte {
    PosBound(8 * (i % 8));
    (ShiftRight(w, Pos(8 * (i % 8))) & 0xFF) as bv8
  }

  lemma ExtractBit(w: bv64, i: nat, n: nat)
    requires n < 8
    ensures ByteBit(Extract(w, i), n) == WordBit(w, 8 * (i % 8) + n)
  {
    hide WordBit, ByteBit, ShiftRight, Pos;
    PosBound(8 * (i % 8));
    LowByte(ShiftRight(w, Pos(8 * (i % 8))), n);
    Right(w, 8 * (i % 8), n);
  }

  /** w | Place(b, i). */
  function Insert(w: bv64, b: Byte, i: nat): bv64 {
    OrOf(w, Place(b, i))
  }

  lemma InsertBit(w: bv64, b: Byte, i: nat, n: nat)
    requires n < 64
    ensures WordBit(Insert(w, b, i), n) == (WordBit(w, n) || (n / 8 == i % 8 && ByteBit(b, n % 8)))
  {
    hide WordBit, ByteBit, Place, OrOf;
    Or(w, Place(b, i), n);
    PlaceBit(b, i, n);
  }

  lemma LoadStep(w: seq<bv64>, s: seq<Byte>, i: nat)
    requires 8 >= |w| && i < |s| <= 64 && i / 8 < |w|
    requires WordsPoly(w) == BytesPoly(s[..i])
    ensures WordsPoly(w[i / 8 := Insert(w[i / 8], s[i], i)]) == BytesPoly(s[..i + 1])
  {
    hide WordBit, ByteBit, Insert;
    var v := w[i / 8 := Insert(w[i / 8], s[i], i)];
    forall k | 0 <= k < SIZE ensures WordsPoly(v)[k] == BytesPoly(s[..i + 1])[k] {
      LoadBit(w, s, i, k);
    }
  }

  lemma LoadBit(w: seq<bv64>, s: seq<Byte>, i: nat, k: nat)
    requires 8 >= |w| && i < |s| <= 64 && i / 8 < |w| && k < SIZE
    requires WordsPoly(w) == BytesPoly(s[..i])
    ensures WordsPoly(w[i / 8 := Insert(w[i / 8], s[i], i)])[k] == BytesPoly(s[..i + 1])[k]
  {
    hide WordBit, ByteBit, Insert;
    assert WordsPoly(w)[k] == BytesPoly(s[..i])[k];
    if k / 64 == i / 8 {
      InsertBit(w[i / 8], s[i], i, k % 64);
      assert k % 64 % 8 == k % 8;
      assert k % 64 / 8 == i % 8 <==> k / 8 == i;
    }
  }

  method Load(source: seq<Byte>, words: array<bv64>)
    requires |source| == FIELD_BYTES && T <= words.Length <= 8
    requires forall i :: 0 <= i < words.Length ==> words[i] == 0
    modifies words
    ensures WordsPoly(words[..]) == BytesPoly(source)
  {
    hide WordBit, ByteBit, Insert;
    AllZero(words[..]);
    assert BytesPoly(source[..0]) == Zero();
    for i := 0 to FIELD_BYTES
      invariant WordsPoly(words[..]) == BytesPoly(source[..i])
    {
      LoadStep(words[..], source, i);
      ghost var before := words[..];
      words[i / 8] := Insert(words[i / 8], source[i], i);
      assert words[..] == before[i / 8 := Insert(before[i / 8], source[i], i)];
    }
    assert source[..FIELD_BYTES] == source;
  }

  lemma AllZero(w: seq<bv64>)
    requires |w| <= 8 && forall i :: 0 <= i < |w| ==> w[i] == 0
    ensures WordsPoly(w) == Zero()
  {
    hide WordBit;
    forall k | 0 <= k < 64 ensures !WordBit(0, k) {
      ZeroBits(k);
    }
  }

  // The comb loop

  /** c + X^(64 j) * b, limb by limb. */
  function AddAt(c: seq<bv64>, b: seq<bv64>, j: nat): seq<bv64> {
    seq(|c|, m requires 0 <= m < |c| => if j <= m < j + |b| then XorOf(c[m], b[m - j]) else c[m])
  }

  lemma AddAtPoly(c: seq<bv64>, b: seq<bv64>, j: nat)
    requires |c| == 8 && j + |b| <= 8
    ensures WordsPoly(AddAt(c, b, j)) == Plus(WordsPoly(c), Shift(WordsPoly(b), 64 * j))
  {
    hide WordBit, XorOf;
    forall k | 0 <= k < SIZE
      ensures WordsPoly(AddAt(c, b, j))[k] == Plus(WordsPoly(c), Shift(WordsPoly(b), 64 * j))[k]
    {
      AddAtBit(c, b, j, k);
    }
  }

  lemma AddAtBit(c: seq<bv64>, b: seq<bv64>, j: nat, k: nat)
    requires |c| == 8 && j + |b| <= 8 && k < SIZE
    ensures |AddAt(c, b, j)| == 8
    ensures WordsPoly(AddAt(c, b, j))[k] == (WordsPoly(c)[k] != (k >= 64 * j && WordsPoly(b)[k - 64 * j]))
  {
    hide WordBit, XorOf;
    if j <= k / 64 < j + |b| {
      Xor(c[k / 64], b[k / 64 - j], k % 64);
    }
  }

  method AddShifted(c: array<bv64>, b: array<bv64>, j: nat)
    requires c != b && c.Length == 8 && b.Length == T + 1 && j < T
    modifies c
    ensures c[..] == AddAt(old(c[..]), b[..], j)
  {
    hide XorOf;
    for i := 0 to T + 1
      invariant forall m :: 0 <= m < 8 ==> c[m] == if j <= m < j + i then XorOf(old(c[m]), b[m - j]) else old(c[m])
    {
      c[j + i] := XorOf(c[j + i], b[i]);
    }
  }

  /** One limb of b shifted by one place, with the bit carried in from the limb below. */
  function Carry(high: bv64, low: bv64): bv64 {
    OrOf(high << 1, low >> 63)
  }

  lemma CarryBit(high: bv64, low: bv64, n: nat)
    requires n < 64
    ensures WordBit(Carry(high, low), n) == if n == 0 then WordBit(low, 63) else WordBit(high, n - 1)
  {
    hide WordBit, Pos, ShiftLeft, ShiftRight, OrOf, Carry;
    CarryForm(high, low);
    Or(ShiftLeft(high, Pos(1)), ShiftRight(low, Pos(63)), n);
    Left(high, 1, n);
    Right(low, 63, n);
    Beyond(low, n + 63);
  }

  lemma CarryForm(high: bv64, low: bv64)
    ensures Pos(1) < 64 && Pos(63) < 64
    ensures Carry(high, low) == OrOf(ShiftLeft(high, Pos(1)), ShiftRight(low, Pos(63)))
  {
    PosOf(1);
    PosOf(63);
  }

  lemma Beyond(w: bv64, n: nat)
    requires n >= 63
    ensures n > 63 ==> !WordBit(w, n)
  {}

  lemma LowBit(w: bv64, n: nat)
    requires n < 64
    ensures WordBit(ShiftLeft(w, 1), n) == (n > 0 && WordBit(w, n - 1))
  {
    hide WordBit, Pos, ShiftLeft;
    PosOf(1);
    Left(w, 1, n);
  }

  /** b << 1 over all limbs. */
  function Doubled(b: seq<bv64>): seq<bv64> {
    seq(|b|, m requires 0 <= m < |b| => if m == 0 then ShiftLeft(b[0], 1) else Carry(b[m], b[m - 1]))
  }

  lemma DoubledPoly(b: seq<bv64>)
    requires 0 < |b| < 8 && !WordsPoly(b)[64 * |b| - 1]
    ensures WordsPoly(Doubled(b)) == Shift(WordsPoly(b), 1)
  {
    hide WordBit, Carry, ShiftLeft;
    forall k | 0 <= k < SIZE ensures WordsPoly(Doubled(b))[k] == Shift(WordsPoly(b), 1)[k] {
      DoubledBit(b, k);
    }
  }

  lemma DoubledBit(b: seq<bv64>, k: nat)
    requires 0 < |b| < 8 && k < SIZE && !WordsPoly(b)[64 * |b| - 1]
    ensures |Doubled(b)| == |b|
    ensures WordsPoly(Doubled(b))[k] == (k > 0 && WordsPoly(b)[k - 1])
  {
    hide WordBit, Carry, ShiftLeft;
    if k < 64 {
      LowBit(b[0], k);
    } else if k < 64 * |b| {
      DoubledLimb(b, k / 64, k % 64);
    } else {
      assert WordsPoly(b)[k - 1] ==> k - 1 < 64 * |b|;
    }
  }

  lemma DoubledLimb(b: seq<bv64>, m: nat, n: nat)
    requires 0 < m < |b| < 8 && n < 64
    ensures WordBit(Doubled(b)[m], n) == WordsPoly(b)[64 * m + n - 1]
  {
    hide WordBit, Carry, ShiftLeft;
    CarryBit(b[m], b[m - 1], n);
    if n == 0 {
      assert (64 * m - 1) / 64 == m - 1 && (64 * m - 1) % 64 == 63;
    } else {
      assert (64 * m + n - 1) / 64 == m && (64 * m + n - 1) % 64 == n - 1;
    }
  }

  method Double(b: array<bv64>, k: bv8)
    requires b.Length == T + 1
    modifies b
    ensures k != 63 ==> b[..] == Doubled(old(b[..]))
  {
    hide Carry, ShiftLeft;
    if k != 63 {
      var i := T;
      while i >= 1
        invariant 0 <= i <= T
        invariant forall m :: 0 <= m <= i ==> b[m] == old(b[m])
        invariant forall m :: i < m <= T ==> b[m] == Carry(old(b[m]), old(b[m - 1]))
      {
        b[i] := Carry(b[i], b[i - 1]);
        i := i - 1;
      }
    }
    b[0] := ShiftLeft(b[0], 1);
  }

  /** The coefficients 64 j' + k' of a whose (k', j') precedes (k, j) lexicographically. */
  function Before(a: Poly, k: nat, j: nat): Poly {
    seq(SIZE, i requires 0 <= i < SIZE => i < 256 && a[i] && (i % 64 < k || (i % 64 == k && i / 64 < j)))
  }

  lemma BeforeStep(a: Poly, b: Poly, k: nat, j: nat)
    requires k < 64 && j < T
    ensures Product(Before(a, k, j + 1), b, 256)
         == if a[64 * j + k] then Plus(Product(Before(a, k, j), b, 256), Shift(Shift(b, k), 64 * j))
            else Product(Before(a, k, j), b, 256)
  {
    var i := 64 * j + k;
    if a[i] {
      assert Before(a, k, j + 1) == Plus(Before(a, k, j), Monomial(i));
      ProductPlusLeft(Before(a, k, j), Monomial(i), b, 256);
      ProductMonomial(i, b, 256);
      assert Shift(Shift(b, k), 64 * j) == Shift(b, i);
    } else {
      assert Before(a, k, j + 1) == Before(a, k, j);
    }
  }

  lemma BeforeRow(a: Poly, k: nat)
    ensures Before(a, k, T) == Before(a, k + 1, 0)
  {}

  method Row(a: array<bv64>, b: array<bv64>, c: array<bv64>, k: bv8, ghost factor: Poly)
    requires c != b && c != a && a.Length == T && b.Length == T + 1 && c.Length == 8 && k < 64
    requires WordsPoly(b[..]) == Shift(factor, k as int)
    requires WordsPoly(c[..]) == Product(Before(WordsPoly(a[..]), k as int, 0), factor, 256)
    modifies c
    ensures WordsPoly(c[..]) == Product(Before(WordsPoly(a[..]), k as int, T), factor, 256)
  {
    hide WordBit, XorOf, AddAt, IsSet, WordsPoly, Product, Before, Plus, Shift;
    ghost var n := k as int;
    ghost var poly := WordsPoly(a[..]);
    LessInt(k, 64);
    for j := 0 to T
      invariant WordsPoly(c[..]) == Product(Before(poly, n, j), factor, 256)
    {
      BeforeStep(poly, factor, n, j);
      Test(a[j], k);
      WordsPolyAt(a[..], j, n);
      if IsSet(a[j], k) {
        AddAtPoly(c[..], b[..], j);
        AddShifted(c, b, j);
      }
    }
  }

  lemma ShiftedIsShort(p: Poly, k: nat)
    requires Below(p, 208) && k < 64
    ensures !Shift(p, k)[319]
  {}

  /** Right-to-left comb multiplication: c becomes a * b. */
  method Comb(a: array<bv64>, b: array<bv64>, c: array<bv64>)
    requires c != b && c != a && a != b && a.Length == T && b.Length == T + 1 && c.Length == 8
    requires Below(WordsPoly(b[..]), 208)
    requires forall i :: 0 <= i < c.Length ==> c[i] == 0
    modifies b, c
    ensures WordsPoly(c[..]) == Product(WordsPoly(a[..]), old(WordsPoly(b[..])), 256)
  {
    hide WordBit, Doubled, WordsPoly, Product, Before, Shift;
    ghost var factor := WordsPoly(b[..]);
    ghost var poly := WordsPoly(a[..]);
    CombStart(c[..], poly, factor);
    var k: bv8 := 0;
    while k < 64
      invariant 0 <= k as int <= 64
      invariant k as int < 64 ==> WordsPoly(b[..]) == Shift(factor, k as int)
      invariant WordsPoly(c[..]) == Product(Before(poly, k as int, 0), factor, 256)
      decreases 64 - k as int
    {
      LessInt(k, 64);
      CountUp(k);
      Row(a, b, c, k, factor);
      BeforeRow(poly, k as int);
      ShiftedIsShort(factor, k as int);
      if k != 63 {
        DoubledPoly(b[..]);
      }
      Double(b, k);
      ShiftOnce(factor, k as int);
      k := k + 1;
    }
    CombEnd(a[..]);
    LessInt(k, 64);
  }

  lemma CombStart(c: seq<bv64>, a: Poly, b: Poly)
    requires |c| == 8 && forall i :: 0 <= i < |c| ==> c[i] == 0
    ensures WordsPoly(c) == Product(Before(a, 0, 0), b, 256)
    ensures Shift(b, 0) == b
  {
    AllZero(c);
    assert Before(a, 0, 0) == Zero();
    ProductOfZero(b, 256);
  }

  lemma CombEnd(a: seq<bv64>)
    requires |a| == T
    ensures Before(WordsPoly(a), 64, 0) == WordsPoly(a)
  {
    hide WordBit;
  }

  lemma ShiftOnce(p: Poly, k: nat)
    ensures Shift(Shift(p, k), 1) == Shift(p, k + 1)
  {}

  lemma {:induction false} ProductOfZero(b: Poly, n: nat)
    requires n <= SIZE
    ensures Product(Zero(), b, n) == Zero()
  {
    if n > 0 {
      ProductOfZero(b, n - 1);
    }
  }

  // Reduction

  function FoldLow(t: bv64): bv64 {
    XorOf(XorOf(XorOf(ShiftLeft(t, 57), ShiftLeft(t, 51)), ShiftLeft(t, 49)), ShiftLeft(t, 48))
  }

  function FoldHigh(t: bv64): bv64 {
    XorOf(XorOf(XorOf(ShiftRight(t, 7), ShiftRight(t, 13)), ShiftRight(t, 15)), ShiftRight(t, 16))
  }

  function FoldLast(t: bv64): bv64 {
    XorOf(XorOf(XorOf(ShiftLeft(t, 9), ShiftLeft(t, 3)), ShiftLeft(t, 1)), t)
  }

  lemma LeftBy(t: bv64, s: bv8, n: nat)
    requires s < 64 && n < 64
    ensures s as int < 64
    ensures WordBit(ShiftLeft(t, s), n) == (n >= s as int && WordBit(t, n - s as int))
  {
    hide WordBit, ShiftLeft, Pos;
    LessInt(s, 64);
    PosOf(s);
    Left(t, s as int, n);
  }

  lemma RightBy(t: bv64, s: bv8, n: nat)
    requires s < 64 && n < 64
    ensures WordBit(ShiftRight(t, s), n) == WordBit(t, n + s as int)
  {
    hide WordBit, ShiftRight, Pos;
    LessInt(s, 64);
    PosOf(s);
    Right(t, s as int, n);
  }

  lemma FoldLowBit(t: bv64, n: nat)
    requires n < 64
    ensures WordBit(FoldLow(t), n) == ((((n >= 57 && WordBit(t, n - 57)) != (n >= 51 && WordBit(t, n - 51)))
      != (n >= 49 && WordBit(t, n - 49))) != (n >= 48 && WordBit(t, n - 48)))
  {
    hide WordBit, ShiftLeft, XorOf;
    LeftBy(t, 57, n); LeftBy(t, 51, n); LeftBy(t, 49, n); LeftBy(t, 48, n);
    Xor(ShiftLeft(t, 57), ShiftLeft(t, 51), n);
    Xor(XorOf(ShiftLeft(t, 57), ShiftLeft(t, 51)), ShiftLeft(t, 49), n);
    Xor(XorOf(XorOf(ShiftLeft(t, 57), ShiftLeft(t, 51)), ShiftLeft(t, 49)), ShiftLeft(t, 48), n);
  }

  lemma FoldHighBit(t: bv64, n: nat)
    requires n < 64
    ensures WordBit(FoldHigh(t), n)
         == (((WordBit(t, n + 7) != WordBit(t, n + 13)) != WordBit(t, n + 15)) != WordBit(t, n + 16))
  {
    hide WordBit, ShiftRight, XorOf;
    RightBy(t, 7, n); RightBy(t, 13, n); RightBy(t, 15, n); RightBy(t, 16, n);
    Xor(ShiftRight(t, 7), ShiftRight(t, 13), n);
    Xor(XorOf(ShiftRight(t, 7), ShiftRight(t, 13)), ShiftRight(t, 15), n);
    Xor(XorOf(XorOf(ShiftRight(t, 7), ShiftRight(t, 13)), ShiftRight(t, 15)), ShiftRight(t, 16), n);
  }

  lemma FoldLastBit(t: bv64, n: nat)
    requires n < 64
    ensures WordBit(FoldLast(t), n) == ((((n >= 9 && WordBit(t, n - 9)) != (n >= 3 && WordBit(t, n - 3)))
      != (n >= 1 && WordBit(t, n - 1))) != WordBit(t, n))
  {
    hide WordBit, ShiftLeft, XorOf;
    LeftBy(t, 9, n); LeftBy(t, 3, n); LeftBy(t, 1, n);
    Xor(ShiftLeft(t, 9), ShiftLeft(t, 3), n);
    Xor(XorOf(ShiftLeft(t, 9), ShiftLeft(t, 3)), ShiftLeft(t, 1), n);
    Xor(XorOf(XorOf(ShiftLeft(t, 9), ShiftLeft(t, 3)), ShiftLeft(t, 1)), t, n);
  }

  /** The limbs after block i has been folded into the blocks below it. */
  function Folded(c: seq<bv64>, i: nat): (d: seq<bv64>)
    requires |c| == 8 && 4 <= i < 8
    ensures |d| == 8
  {
    c[i - 4 := XorOf(c[i - 4], FoldLow(c[i]))][i - 3 := XorOf(c[i - 3], FoldHigh(c[i]))][i := 0]
  }

  /** X^(64 i - 208) times block i: what is taken off the multiple of the modulus. */
  function Quotient(c: seq<bv64>, i: nat): Poly
    requires |c| == 8 && 4 <= i < 8
  {
    Shift(WordsPoly([c[i]]), 64 * i - 208)
  }

  /** Bit d of t, for any integer d. */
  predicate BitOf(t: bv64, d: int) {
    d >= 0 && WordBit(t, d)
  }

  lemma QuotientMultiple(c: seq<bv64>, i: nat, k: nat)
    requires |c| == 8 && 4 <= i < 8 && k < SIZE
    ensures var d := k - (64 * i - 208); var t := c[i];
      Multiple(Quotient(c, i))[k]
      == (BitOf(t, d) != (BitOf(t, d - 1) != (BitOf(t, d - 3) != (BitOf(t, d - 9) != BitOf(t, d - 208)))))
  {
    hide WordBit;
    var q := Quotient(c, i);
    BitsBeyond(c[i]);
    forall m | 0 <= m < SIZE ensures q[m] == BitOf(c[i], m - (64 * i - 208)) {
    }
  }

  lemma FoldedBit(c: seq<bv64>, i: nat, k: nat)
    requires |c| == 8 && 4 <= i < 8 && k < SIZE
    ensures WordsPoly(Folded(c, i))[k] == (WordsPoly(c)[k] != Multiple(Quotient(c, i))[k])
  {
    hide WordBit, XorOf, FoldLow, FoldHigh, Multiple, Quotient;
    QuotientMultiple(c, i, k);
    BitsBeyond(c[i]);
    var m, n := k / 64, k % 64;
    if m == i - 4 {
      Xor(c[i - 4], FoldLow(c[i]), n);
      FoldLowBit(c[i], n);
    } else if m == i - 3 {
      Xor(c[i - 3], FoldHigh(c[i]), n);
      FoldHighBit(c[i], n);
    } else if m == i {
      ZeroBits(n);
    }
  }

  lemma BitsBeyond(t: bv64)
    ensures forall n :: n >= 64 ==> !WordBit(t, n)
  {}

  lemma FoldedPoly(c: seq<bv64>, i: nat)
    requires |c| == 8 && 4 <= i < 8
    ensures WordsPoly(Folded(c, i)) == Plus(WordsPoly(c), Multiple(Quotient(c, i)))
    ensures Below(Quotient(c, i), 304)
  {
    hide WordBit, Multiple, Folded;
    BitsBeyond(c[i]);
    forall k | 0 <= k < SIZE
      ensures WordsPoly(Folded(c, i))[k] == Plus(WordsPoly(c), Multiple(Quotient(c, i)))[k]
    {
      FoldedBit(c, i, k);
    }
  }

  /** The limbs after the top 48 bits of limb 3 have been folded into limb 0. */
  function Trimmed(c: seq<bv64>): (d: seq<bv64>)
    requires |c| == 8
    ensures |d| == 8
  {
    c[0 := XorOf(c[0], FoldLast(ShiftRight(c[3], 16)))][3 := LowBits(c[3])]
  }

  function LowBits(w: bv64): bv64 {
    w & 0xFFFF
  }

  function Top(c: seq<bv64>): Poly
    requires |c| == 8
  {
    WordsPoly([ShiftRight(c[3], 16)])
  }

  lemma TopMultiple(c: seq<bv64>, k: nat)
    requires |c| == 8 && k < SIZE
    ensures var t := ShiftRight(c[3], 16);
      Multiple(Top(c))[k]
      == (BitOf(t, k) != (BitOf(t, k - 1) != (BitOf(t, k - 3) != (BitOf(t, k - 9) != BitOf(t, k - 208)))))
    ensures forall n :: n >= 48 ==> !WordBit(ShiftRight(c[3], 16), n)
  {
    hide WordBit, ShiftRight;
    var t := ShiftRight(c[3], 16);
    BitsBeyond(t);
    BitsBeyond(c[3]);
    forall n | n >= 48 ensures !WordBit(t, n) {
      if n < 64 { RightBy(c[3], 16, n); }
    }
    forall m | 0 <= m < SIZE ensures Top(c)[m] == BitOf(t, m) {
    }
  }

  lemma TrimmedBit(c: seq<bv64>, k: nat)
    requires |c| == 8 && k < SIZE && forall m :: 4 <= m < 8 ==> c[m] == 0
    ensures WordsPoly(Trimmed(c))[k] == (WordsPoly(c)[k] != Multiple(Top(c))[k])
    ensures k >= 208 ==> !WordsPoly(Trimmed(c))[k]
  {
    hide WordBit, XorOf, FoldLast, ShiftRight, LowBits, Multiple, Top;
    TopMultiple(c, k);
    var m, n := k / 64, k % 64;
    var t := ShiftRight(c[3], 16);
    if m == 0 {
      Xor(c[0], FoldLast(t), n);
      FoldLastBit(t, n);
    } else if m == 3 {
      LowBitsBit(c[3], n);
      if n >= 16 {
        RightBy(c[3], 16, n - 16);
      }
    } else if m > 3 {
      ZeroBits(n);
    }
  }

  lemma LowBitsBit(w: bv64, n: nat)
    ensures WordBit(LowBits(w), n) == (n < 16 && WordBit(w, n))
  {
    hide WordBit;
    Low16(w, n);
  }

  lemma TrimmedPoly(c: seq<bv64>)
    requires |c| == 8 && forall m :: 4 <= m < 8 ==> c[m] == 0
    ensures WordsPoly(Trimmed(c)) == Plus(WordsPoly(c), Multiple(Top(c)))
    ensures Below(WordsPoly(Trimmed(c)), 208) && Below(Top(c), 304)
  {
    hide WordBit, Multiple, Trimmed, ShiftRight;
    forall k | 0 <= k < SIZE
      ensures WordsPoly(Trimmed(c))[k] == Plus(WordsPoly(c), Multiple(Top(c)))[k]
      ensures k >= 208 ==> !WordsPoly(Trimmed(c))[k]
    {
      TrimmedBit(c, k);
    }
  }

  /** Taking another multiple of the modulus off a remainder candidate. */
  lemma StillCongruent(p: Poly, r: Poly, q: Poly)
    requires Congruent(p, r) && Below(q, 304)
    ensures Congruent(p, Plus(r, Multiple(q)))
  {
    var s: Poly :| Below(s, 304) && p == Plus(r, Product(s, Modulus(), 304));
    ProductIsMultiple(s, 304);
    ProductIsMultiple(Plus(s, q), 304);
    assert Cut(s, 304) == s && Cut(Plus(s, q), 304) == Plus(s, q);
    MultiplePlus(s, q);
    PlusTwice(r, Multiple(q), Multiple(s));
  }

  lemma PlusTwice(r: Poly, u: Poly, v: Poly)
    ensures Plus(r, v) == Plus(Plus(r, u), Plus(v, u))
  {}

  lemma CongruentSelf(p: Poly)
    ensures Congruent(p, p)
  {
    ProductOfZero(Modulus(), 304);
    assert p == Plus(p, Zero());
    assert Below(Zero(), 304);
  }

  /** Word-wise reduction modulo X^208 + X^9 + X^3 + X + 1. */
  method Reduce(c: array<bv64>)
    requires c.Length == 8
    modifies c
    ensures Congruent(old(WordsPoly(c[..])), WordsPoly(c[..]))
    ensures Below(WordsPoly(c[..]), 208)
  {
    hide XorOf, FoldLow, FoldHigh, FoldLast, ShiftRight, LowBits, WordsPoly, Congruent, Multiple, Quotient, Top, Below, Plus;
    ghost var p := WordsPoly(c[..]);
    CongruentSelf(p);
    var i := 7;
    while i >= T
      invariant 3 <= i < 8
      invariant Congruent(p, WordsPoly(c[..]))
      invariant forall m :: i < m < 8 ==> c[m] == 0
    {
      ghost var before := c[..];
      FoldedPoly(before, i);
      StillCongruent(p, WordsPoly(before), Quotient(before, i));
      var t := c[i];
      c[i - 4] := XorOf(c[i - 4], FoldLow(t));
      c[i - 3] := XorOf(c[i - 3], FoldHigh(t));
      c[i] := 0;
      assert c[..] == Folded(before, i);
      i := i - 1;
    }
    ghost var before := c[..];
    TrimmedPoly(before);
    StillCongruent(p, WordsPoly(before), Top(before));
    var t := ShiftRight(c[3], 16);
    c[0] := XorOf(c[0], FoldLast(t));
    c[3] := LowBits(c[3]);
    assert c[..] == Trimmed(before);
  }

  /** The result in its original format. */
  method Store(c: array<bv64>) returns (result: seq<Byte>)
    requires c.Length == 8 && Below(WordsPoly(c[..]), 208)
    ensures |result| == FIELD_BYTES && BytesPoly(result) == WordsPoly(c[..])
  {
    hide WordBit, ByteBit, Extract, WordsPoly, BytesPoly;
    result := [];
    for i := 0 to FIELD_BYTES
      invariant |result| == i
      invariant forall m :: 0 <= m < i ==> result[m] == Extract(c[m / 8], m)
    {
      result := result + [Extract(c[i / 8], i)];
    }
    StoredPoly(c[..], result);
  }

  lemma StoredPoly(c: seq<bv64>, result: seq<Byte>)
    requires |c| == 8 && Below(WordsPoly(c), 208) && |result| == FIELD_BYTES
    requires forall m :: 0 <= m < FIELD_BYTES ==> result[m] == Extract(c[m / 8], m)
    ensures BytesPoly(result) == WordsPoly(c)
  {
    hide WordBit, ByteBit, Extract, WordsPoly, BytesPoly;
    forall k | 0 <= k < SIZE ensures BytesPoly(result)[k] == WordsPoly(c)[k] {
      if k < 208 {
        StoredBit(c, result, k / 8, k % 8);
      }
      BytesPolyAt(result, k);
    }
  }

  lemma BytesPolyAt(s: seq<Byte>, k: nat)
    requires |s| <= 64 && k < SIZE
    ensures BytesPoly(s)[k] == (k < 8 * |s| && ByteBit(s[k / 8], k % 8))
  {
    hide ByteBit;
  }

  lemma StoredBit(c: seq<bv64>, result: seq<Byte>, m: nat, n: nat)
    requires |c| == 8 && |result| == FIELD_BYTES && m < FIELD_BYTES && n < 8
    requires result[m] == Extract(c[m / 8], m)
    ensures ByteBit(result[m], n) == WordsPoly(c)[8 * m + n]
  {
    hide WordBit, ByteBit, Extract;
    ExtractBit(c[m / 8], m, n);
    assert (8 * m + n) / 64 == m / 8 && (8 * m + n) % 64 == 8 * (m % 8) + n;
  }

  /** field_mul: the product of two field elements, reduced. */
  method FieldMul(left: seq<Byte>, right: seq<Byte>) returns (r: Result<seq<Byte>, FieldError>)
    ensures r.Ok? <==> |left| == FIELD_BYTES && |right| == FIELD_BYTES
    ensures r.Ok? ==>
      && |r.value| == FIELD_BYTES
      && Congruent(Product(BytesPoly(left), BytesPoly(right), 208), BytesPoly(r.value))
  {
    hide WordsPoly, Congruent, Product;
    if |left| != FIELD_BYTES || |right| != FIELD_BYTES {
      return Err(WrongLength);
    }
    var a := new bv64[T](_ => 0);
    var b := new bv64[T + 1](_ => 0);
    var c := new bv64[2 * T](_ => 0);
    Load(left, a);
    Load(right, b);
    Comb(a, b, c);
    ProductBeyond(BytesPoly(left), BytesPoly(right), 208, 256);
    Reduce(c);
    var result := Store(c);
    return Ok(result);
  }

  lemma {:induction false} ProductBeyond(a: Poly, b: Poly, n: nat, m: nat)
    requires Below(a, n) && n <= m <= SIZE
    ensures Product(a, b, m) == Product(a, b, n)
    decreases m
  {
    if m > n {
      ProductBeyond(a, b, n, m - 1);
    }
  }
}
