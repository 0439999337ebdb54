/** Polynomials over GF(2), multiplication, and reduction modulo X^208 + X^9 + X^3 + X + 1. */
module BinaryPolynomials {

  const SIZE: nat := 512

  /** Entry k is the coefficient of X^k. */
  type Poly = p: seq<bool> | |p| == SIZE witness seq(SIZE, _ => false)

  function Zero(): Poly {
    seq(SIZE, _ => false)
  }

  function Plus(x: Poly, y: Poly): Poly {
    seq(SIZE, k requires 0 <= k < SIZE => x[k] != y[k])
  }

  /** X^n * p, without the coefficients of X^512 and above. */
  function Shift(p: Poly, n: nat): Poly {
    seq(SIZE, k requires 0 <= k < SIZE => k >= n && p[k - n])
  }

  function Monomial(n: nat): Poly {
    seq(SIZE, k => k == n)
  }

  /** p has degree below n. */
  predicate Below(p: Poly, n: nat) {
    forall k :: n <= k < SIZE ==> !p[k]
  }

  /** The sum of X^i * b over the i < n with a_i = 1: the product a * b when a has degree below n. */
  function Product(a: Poly, b: Poly, n: nat): Poly
    requires n <= SIZE
  {
    if n == 0 then Zero()
    else if a[n - 1] then Plus(Product(a, b, n - 1), Shift(b, n - 1))
    else Product(a, b, n - 1)
  }

  // Product is bilinear and commutative

  lemma {:induction false} ProductPlusLeft(x: Poly, y: Poly, b: Poly, n: nat)
    requires n <= SIZE
    ensures Product(Plus(x, y), b, n) == Plus(Product(x, b, n), Product(y, b, n))
  {
    if n > 0 {
      ProductPlusLeft(x, y, b, n - 1);
    }
  }

  lemma {:induction false} ProductPlusRight(a: Poly, x: Poly, y: Poly, n: nat)
    requires n <= SIZE
    ensures Product(a, Plus(x, y), n) == Plus(Product(a, x, n), Product(a, y, n))
  {
    if n > 0 {
      ProductPlusRight(a, x, y, n - 1);
    }
  }

  lemma {:induction false} ProductMonomial(i: nat, b: Poly, n: nat)
    requires n <= SIZE
    ensures Product(Monomial(i), b, n) == if i < n then Shift(b, i) else Zero()
  {
    if n > 0 {
      ProductMonomial(i, b, n - 1);
    }
  }

  lemma {:induction false} ProductShift(a: Poly, b: Poly, i: nat, n: nat)
    requires n <= SIZE
    ensures Product(a, Shift(b, i), n) == Shift(Product(a, b, n), i)
  {
    if n > 0 {
      ProductShift(a, b, i, n - 1);
      assert Shift(Shift(b, i), n - 1) == Shift(Shift(b, n - 1), i);
    }
  }

  /** a * 1 == a. */
  lemma {:induction false} ProductOne(a: Poly, n: nat)
    requires n <= SIZE
    ensures Product(a, Monomial(0), n) == seq(SIZE, k requires 0 <= k < SIZE => k < n && a[k])
  {
    if n > 0 {
      ProductOne(a, n - 1);
    }
  }

  /** b cut to the terms below X^m. */
  function Cut(b: Poly, m: nat): Poly {
    seq(SIZE, k requires 0 <= k < SIZE => k < m && b[k])
  }

  lemma {:induction false} ProductSwap(a: Poly, b: Poly, n: nat, m: nat)
    requires n <= SIZE && m <= SIZE && Below(a, n)
    ensures Product(a, Cut(b, m), n) == Product(b, a, m)
    decreases m
  {
    if m == 0 {
      assert Cut(b, 0) == Zero();
      ProductZero(a, n);
    } else {
      ProductSwap(a, b, n, m - 1);
      if b[m - 1] {
        assert Cut(b, m) == Plus(Cut(b, m - 1), Shift(Monomial(0), m - 1));
        ProductPlusRight(a, Cut(b, m - 1), Shift(Monomial(0), m - 1), n);
        ProductShift(a, Monomial(0), m - 1, n);
        ProductOne(a, n);
        assert Product(a, Monomial(0), n) == a;
      } else {
        assert Cut(b, m) == Cut(b, m - 1);
      }
    }
  }

  lemma {:induction false} ProductZero(a: Poly, n: nat)
    requires n <= SIZE
    ensures Product(a, Zero(), n) == Zero()
  {
    if n > 0 {
      ProductZero(a, n - 1);
    }
  }

  lemma ProductCommutes(a: Poly, b: Poly, n: nat, m: nat)
    requires n <= SIZE && m <= SIZE && Below(a, n) && Below(b, m)
    ensures Product(a, b, n) == Product(b, a, m)
  {
    ProductSwap(a, b, n, m);
    assert Cut(b, m) == b;
  }

  /** Parity of the number of i < n with a_i == 1 and b_(k-i) == 1. */
  ghost predicate Convolution(a: Poly, b: Poly, n: nat, k: nat)
    requires n <= SIZE && k < SIZE
  {
    n > 0 && (Convolution(a, b, n - 1, k) != (a[n - 1] && n - 1 <= k && b[k - (n - 1)]))
  }

  lemma {:induction false} ProductIsConvolution(a: Poly, b: Poly, n: nat)
    requires n <= SIZE
    ensures forall k :: 0 <= k < SIZE ==> Product(a, b, n)[k] == Convolution(a, b, n, k)
  {
    if n > 0 {
      ProductIsConvolution(a, b, n - 1);
    }
  }

  // Reduction

  /** X^208 + X^9 + X^3 + X + 1 */
  function Modulus(): Poly {
    seq(SIZE, k => k == 208 || k == 9 || k == 3 || k == 1 || k == 0)
  }

  /** p == r modulo Modulus(): they differ by a multiple q * Modulus(), with q of degree below 304. */
  ghost predicate Congruent(p: Poly, r: Poly) {
    exists q: Poly :: Below(q, 304) && p == Plus(r, Product(q, Modulus(), 304))
  }

  /** q * Modulus() in closed form. */
  function Multiple(q: Poly): Poly {
    seq(SIZE, k requires 0 <= k < SIZE =>
      q[k] != ((k >= 1 && q[k - 1]) != ((k >= 3 && q[k - 3]) != ((k >= 9 && q[k - 9]) != (k >= 208 && q[k - 208])))))
  }

  lemma {:induction false} ProductIsMultiple(q: Poly, n: nat)
    requires n <= SIZE
    ensures Product(q, Modulus(), n) == Multiple(Cut(q, n))
  {
    if n > 0 {
      ProductIsMultiple(q, n - 1);
      if q[n - 1] {
        assert Cut(q, n) == Plus(Cut(q, n - 1), Monomial(n - 1));
        MultiplePlus(Cut(q, n - 1), Monomial(n - 1));
        MultipleMonomial(n - 1);
      } else {
        assert Cut(q, n) == Cut(q, n - 1);
      }
    }
  }

  lemma MultipleMonomial(i: nat)
    requires i < SIZE
    ensures Multiple(Monomial(i)) == Shift(Modulus(), i)
  {}

  /** A non-zero multiple of the modulus has degree at least 208. */
  lemma {:induction false} MultipleIsLong(q: Poly, n: nat)
    requires n <= 304 && Below(q, n) && Below(Multiple(q), 208)
    ensures q == Zero()
  {
    if n > 0 {
      assert Multiple(q)[n - 1 + 208] == q[n - 1];
      MultipleIsLong(q, n - 1);
    }
  }

  lemma MultiplePlus(q: Poly, t: Poly)
    ensures Multiple(Plus(q, t)) == Plus(Multiple(q), Multiple(t))
  {}

  /** There is at most one remainder of degree below 208. */
  lemma RemainderIsUnique(p: Poly, r: Poly, s: Poly)
    requires Congruent(p, r) && Congruent(p, s) && Below(r, 208) && Below(s, 208)
    ensures r == s
  {
    var q: Poly :| Below(q, 304) && p == Plus(r, Product(q, Modulus(), 304));
    var t: Poly :| Below(t, 304) && p == Plus(s, Product(t, Modulus(), 304));
    ProductIsMultiple(q, 304);
    ProductIsMultiple(t, 304);
    assert Cut(q, 304) == q && Cut(t, 304) == t;
    MultiplePlus(q, t);
    PlusCancel(r, Multiple(q), s, Multiple(t));
    MultipleIsLong(Plus(q, t), 304);
    assert Plus(r, s) == Zero();
    forall k | 0 <= k < SIZE ensures r[k] == s[k] {
      assert !Plus(r, s)[k];
    }
  }

  lemma PlusCancel(r: Poly, u: Poly, s: Poly, v: Poly)
    requires Plus(r, u) == Plus(s, v)
    ensures Plus(u, v) == Plus(r, s)
  {
    forall k | 0 <= k < SIZE ensures Plus(u, v)[k] == Plus(r, s)[k] {
      assert Plus(r, u)[k] == Plus(s, v)[k];
    }
  }
}
