/** Scalars: the integers modulo the order of the curve's group, which is any prime above the
    largest party index. */
module PrimeField {

  ghost predicate IsPrime(p: int) {
    p >= 2 && forall d :: 2 <= d < p ==> p % d != 0
  }

  lemma Prime257()
    ensures IsPrime(257)
  {}

  type Order = p: int | p > 256 && IsPrime(p) witness (Prime257(); 257)

  /** The group order: no property beyond those of Order is known. */
  const Q: Order

  type Scalar = x: int | 0 <= x < Q

  /** The operations on residues. Their definition applies only where Unfold is mentioned, which
      keeps the proofs below from being searched for among remainders. */
  datatype Operations = Operations(
    reduce: int -> int, add: (int, int) -> int, mul: (int, int) -> int, neg: int -> int)

  ghost predicate Unfold(a: int, b: int) { true }

  ghost predicate AreResidues(f: Operations) {
    forall a, b {:trigger Unfold(a, b)} ::
      f.reduce(a) == a % Q && f.neg(a) == (-a) % Q && f.add(a, b) == (a + b) % Q && f.mul(a, b) == (a * b) % Q
  }

  type Residues = f: Operations | AreResidues(f)
    witness Operations(a => a % Q, (a, b) => (a + b) % Q, (a, b) => (a * b) % Q, a => (-a) % Q)

  const F: Residues

  /** The residue of an integer. */
  function Of(x: int): Scalar {
    assert Unfold(x, x);
    F.reduce(x)
  }

  function Add(a: Scalar, b: Scalar): Scalar {
    assert Unfold(a, b);
    F.add(a, b)
  }

  function Mul(a: Scalar, b: Scalar): Scalar {
    assert Unfold(a, b);
    F.mul(a, b)
  }

  function Neg(a: Scalar): Scalar {
    assert Unfold(a, a);
    F.neg(a)
  }

  function Sub(a: Scalar, b: Scalar): Scalar {
    Add(a, Neg(b))
  }

  // Of is a ring homomorphism from the integers

  lemma RemainderUnique(m: int, x: int, k: int, r: int)
    requires m > 0 && x == k * m + r && 0 <= r < m
    ensures x % m == r
  {
    var k', r' := x / m, x % m;
    assert x == k' * m + r';
    assert (k - k') * m == r' - r;
    Multiples(k - k', m);
  }

  lemma Multiples(d: int, m: int)
    requires m > 0
    ensures d >= 1 ==> d * m >= m
    ensures d <= -1 ==> d * m <= -m
  {
    if d <= -1 {
      assert (-d) * m >= m;
    }
  }

  lemma SameRemainder(m: int, x: int, y: int, k: int)
    requires m > 0 && x == k * m + y
    ensures x % m == y % m
  {
    assert y == (y / m) * m + y % m;
    assert x == (k + y / m) * m + y % m;
    RemainderUnique(m, x, k + y / m, y % m);
  }

  lemma OfScalar(a: Scalar)
    ensures Of(a) == a
  {
    assert Unfold(a, a);
    RemainderUnique(Q, a, 0, a);
  }

  lemma OfAdd(x: int, y: int)
    ensures Add(Of(x), Of(y)) == Of(x + y)
  {
    assert Unfold(x, x) && Unfold(y, y) && Unfold(x + y, x) && Unfold(Of(x), Of(y));
    SumOfRemainders(Q, x, y);
  }

  lemma SumOfRemainders(m: int, x: int, y: int)
    requires m > 0
    ensures (x % m + y % m) % m == (x + y) % m
  {
    assert x == (x / m) * m + x % m && y == (y / m) * m + y % m;
    assert x + y == (x / m + y / m) * m + (x % m + y % m);
    SameRemainder(m, x + y, x % m + y % m, x / m + y / m);
  }

  lemma OfMul(x: int, y: int)
    ensures Mul(Of(x), Of(y)) == Of(x * y)
  {
    assert Unfold(x, x) && Unfold(y, y) && Unfold(x * y, x) && Unfold(Of(x), Of(y));
    ProductOfRemainders(Q, x, y);
  }

  lemma ProductOfRemainders(m: int, x: int, y: int)
    requires m > 0
    ensures ((x % m) * (y % m)) % m == (x * y) % m
  {
    var a, r, b, s := x / m, x % m, y / m, y % m;
    assert x == a * m + r && y == b * m + s;
    assert x * y == (a * m + r) * (b * m + s) == (a * b * m + a * s + b * r) * m + r * s;
    SameRemainder(m, x * y, r * s, a * b * m + a * s + b * r);
  }

  lemma OfNeg(x: int)
    ensures Neg(Of(x)) == Of(-x)
  {
    assert Unfold(x, x) && Unfold(-x, x) && Unfold(Of(x), Of(x));
    NegOfRemainder(Q, x);
  }

  lemma NegOfRemainder(m: int, x: int)
    requires m > 0
    ensures (-(x % m)) % m == (-x) % m
  {
    var k, r := x / m, x % m;
    assert x == k * m + r;
    assert -x == (-k) * m + -r;
    SameRemainder(m, -x, -r, -k);
  }

  lemma Ring()
    ensures forall x: int, y: int {:trigger Add(Of(x), Of(y))} :: Add(Of(x), Of(y)) == Of(x + y)
    ensures forall x: int, y: int {:trigger Mul(Of(x), Of(y))} :: Mul(Of(x), Of(y)) == Of(x * y)
    ensures forall x: int {:trigger Neg(Of(x))} :: Neg(Of(x)) == Of(-x)
    ensures forall a: Scalar, b: Scalar {:trigger Add(a, b)} :: Of(a) == a && Of(b) == b
    ensures forall a: Scalar, b: Scalar {:trigger Mul(a, b)} :: Of(a) == a && Of(b) == b
    ensures forall a: Scalar {:trigger Neg(a)} :: Of(a) == a
  {
    forall x: int, y: int ensures Add(Of(x), Of(y)) == Of(x + y) { OfAdd(x, y); }
    forall x: int, y: int ensures Mul(Of(x), Of(y)) == Of(x * y) { OfMul(x, y); }
    forall x: int ensures Neg(Of(x)) == Of(-x) { OfNeg(x); }
    forall a: Scalar ensures Of(a) == a { OfScalar(a); }
  }

  // Inverses

  /** Bezout coefficients: a * x + b * y == g, and g divides a and b. */
  function Bezout(a: nat, b: nat): (r: (nat, int, int))
    requires a > 0
    ensures r.0 > 0 && a * r.1 + b * r.2 == r.0
    ensures a % r.0 == 0 && b % r.0 == 0
    decreases b
  {
    if b == 0 then
      (a, 1, 0)
    else
      var (g, x, y) := Bezout(b, a % b);
      BezoutStep(a, b, g, x, y);
      (g, y, x - (a / b) * y)
  }

  lemma BezoutStep(a: nat, b: nat, g: nat, x: int, y: int)
    requires b > 0 && g > 0 && b * x + (a % b) * y == g && b % g == 0 && (a % b) % g == 0
    ensures a * y + b * (x - (a / b) * y) == g
    ensures a % g == 0
  {
    assert a == b * (a / b) + a % b;
    assert b * (x - (a / b) * y) == b * x - (b * (a / b)) * y;
    assert a * y == (b * (a / b)) * y + (a % b) * y;
    assert b == g * (b / g) && a % b == g * ((a % b) / g);
    assert b * (a / b) == (g * (b / g)) * (a / b) == g * ((b / g) * (a / b));
    assert a == ((b / g) * (a / b) + (a % b) / g) * g + 0;
    RemainderUnique(g, a, (b / g) * (a / b) + (a % b) / g, 0);
  }

  /** invert() on a non-zero scalar. */
  function Inv(a: Scalar): (b: Scalar)
    requires a != 0
    ensures Mul(a, b) == 1
  {
    var (g, x, y) := Bezout(Q, a);
    InverseOf(a, g, x, y);
    Of(y)
  }

  lemma InverseOf(a: Scalar, g: nat, x: int, y: int)
    requires a != 0 && g > 0 && Q * x + a * y == g && Q % g == 0 && (a as int) % g == 0
    ensures Mul(a, Of(y)) == 1
  {
    CommonDivisor(a, g);
    assert a * y == (-x) * Q + 1;
    RemainderUnique(Q, a * y, -x, 1);
    OfScalar(a);
    OfMul(a, y);
    assert Unfold(a * y, 0);
  }

  lemma CommonDivisor(a: Scalar, g: nat)
    requires a != 0 && g > 0 && Q % g == 0 && (a as int) % g == 0
    ensures g == 1
  {
    if g > a {
      RemainderUnique(g, a, 0, a);
    }
    assert g <= a < Q;
    assert IsPrime(Q);
  }

  // Consequences used throughout

  lemma Identities(a: Scalar)
    ensures Add(a, 0) == a && Mul(a, 1) == a && Mul(a, 0) == 0 && Sub(a, a) == 0 && Neg(0) == 0
  {
    var x: int := a;
    OfScalar(a); OfScalar(0); OfScalar(1);
    OfAdd(x, 0); OfMul(x, 1); OfMul(x, 0); OfNeg(x); OfNeg(0); OfAdd(x, -x);
  }

  lemma Commute(a: Scalar, b: Scalar)
    ensures Add(a, b) == Add(b, a) && Mul(a, b) == Mul(b, a)
  {
    Ring();
  }

  lemma AddAssoc(a: Scalar, b: Scalar, c: Scalar)
    ensures Add(a, Add(b, c)) == Add(Add(a, b), c)
  {
    Ring();
  }

  lemma NegNeg(a: Scalar)
    ensures Neg(Neg(a)) == a
  {
    Ring();
  }

  lemma MulAssoc(a: Scalar, b: Scalar, c: Scalar)
    ensures Mul(a, Mul(b, c)) == Mul(Mul(a, b), c)
  {
    Ring();
    assert a * (b * c) == (a * b) * c;
  }

  lemma NoZeroDivisors(a: Scalar, b: Scalar)
    requires Mul(a, b) == 0 && a != 0
    ensures b == 0
  {
    var i := Inv(a);
    MulAssoc(i, a, b);
    Commute(i, a);
    Commute(1, b);
    Identities(i);
    Identities(b);
  }

  lemma InvNonZero(a: Scalar)
    requires a != 0
    ensures Inv(a) != 0
  {
    Identities(a);
  }

  lemma DifferenceZero(a: Scalar, b: Scalar)
    requires Sub(a, b) == 0
    ensures a == b
  {
    assert Add(Sub(a, b), b) == a by { Ring(); OfScalar(a); }
    assert Add(0, b) == b by { Ring(); OfScalar(0); OfScalar(b); }
  }

  lemma AddThenSub(a: Scalar, b: Scalar)
    ensures Sub(Add(a, b), b) == a
  {
    var a': int, b': int := a, b;
    OfScalar(a); OfScalar(b);
    OfAdd(a', b'); OfNeg(b'); OfAdd((a' + b'), (-b'));
    assert (a' + b') + (-b') == a';
  }

  lemma DistributeSub(a: Scalar, b: Scalar, c: Scalar)
    ensures Mul(a, Sub(b, c)) == Sub(Mul(a, b), Mul(a, c))
  {
    var a': int, b': int, c': int := a, b, c;
    OfScalar(a); OfScalar(b); OfScalar(c);
    OfNeg(c'); OfAdd(b', (-c')); OfMul(a', (b' + (-c'))); OfMul(a', b'); OfMul(a', c'); OfNeg((a' * c'));
    OfAdd((a' * b'), (-(a' * c')));
    assert a' * (b' + (-c')) == (a' * b') + (-(a' * c'));
  }
}
