/** Polynomials over the scalars, given by their coefficients, and Lagrange interpolation. */
module Polynomials {
  import opened Sequences
  import opened PrimeField
  import opened Sums

  /** The value of p at x, by Horner's rule. */
  function Eval(p: seq<Scalar>, x: Scalar): Scalar {
    if p == [] then 0 else Add(Mul(Eval(p[1..], x), x), p[0])
  }

  /** p and q take the same value everywhere. */
  ghost predicate SameFunction(p: seq<Scalar>, q: seq<Scalar>) {
    forall x: Scalar :: Eval(p, x) == Eval(q, x)
  }

  // Operations on coefficients

  function Combine(p: seq<Scalar>, c: Scalar, q: seq<Scalar>): seq<Scalar>
    requires |p| == |q|
  {
    seq(|p|, i requires 0 <= i < |p| => Add(p[i], Mul(c, q[i])))
  }

  lemma {:induction false} EvalCombine(p: seq<Scalar>, c: Scalar, q: seq<Scalar>, x: Scalar)
    requires |p| == |q|
    ensures Eval(Combine(p, c, q), x) == Add(Eval(p, x), Mul(c, Eval(q, x)))
  {
    if p == [] {
      Identities(c);
      Identities(0);
    } else {
      EvalCombine(p[1..], c, q[1..], x);
      assert Combine(p, c, q)[1..] == Combine(p[1..], c, q[1..]);
      CombineStep(Eval(p[1..], x), Eval(q[1..], x), c, x, p[0], q[0]);
    }
  }

  lemma CombineStep(e: Scalar, f: Scalar, c: Scalar, x: Scalar, a: Scalar, b: Scalar)
    ensures Add(Mul(Add(e, Mul(c, f)), x), Add(a, Mul(c, b))) == Add(Add(Mul(e, x), a), Mul(c, Add(Mul(f, x), b)))
  {
    var e': int, c': int, f': int, x': int, a': int, b': int := e, c, f, x, a, b;
    OfScalar(e); OfScalar(c); OfScalar(f); OfScalar(x); OfScalar(a); OfScalar(b);
    OfMul(c', f'); OfAdd(e', (c' * f')); OfMul((e' + (c' * f')), x'); OfMul(c', b'); OfAdd(a', (c' * b'));
    OfAdd(((e' + (c' * f')) * x'), (a' + (c' * b'))); OfMul(e', x'); OfAdd((e' * x'), a'); OfMul(f', x');
    OfAdd((f' * x'), b'); OfMul(c', ((f' * x') + b')); OfAdd(((e' * x') + a'), (c' * ((f' * x') + b')));
    assert ((e' + (c' * f')) * x') + (a' + (c' * b')) == ((e' * x') + a') + (c' * ((f' * x') + b'));
  }

  lemma {:induction false} EvalZeros(p: seq<Scalar>, x: Scalar)
    requires forall i :: 0 <= i < |p| ==> p[i] == 0
    ensures Eval(p, x) == 0
  {
    if p != [] {
      EvalZeros(p[1..], x);
      Commute(0, x);
      Identities(x);
      Identities(0);
    }
  }

  lemma EvalAtZero(p: seq<Scalar>)
    ensures Eval(p, 0) == if p == [] then 0 else p[0]
  {
    if p != [] {
      Identities(Eval(p[1..], 0));
      Commute(0, p[0]);
      Identities(p[0]);
    }
  }

  /** The coefficients of (X - r) * p. */
  function TimesLinear(p: seq<Scalar>, r: Scalar): seq<Scalar> {
    Combine([0] + p, Neg(r), p + [0])
  }

  lemma {:induction false} EvalAppendZero(p: seq<Scalar>, x: Scalar)
    ensures Eval(p + [0], x) == Eval(p, x)
  {
    if p == [] {
      EvalZeros([0], x);
    } else {
      EvalAppendZero(p[1..], x);
      assert (p + [0])[1..] == p[1..] + [0];
    }
  }

  lemma EvalTimesLinear(p: seq<Scalar>, r: Scalar, x: Scalar)
    ensures Eval(TimesLinear(p, r), x) == Mul(Sub(x, r), Eval(p, x))
  {
    EvalCombine([0] + p, Neg(r), p + [0], x);
    EvalAppendZero(p, x);
    assert ([0] + p)[1..] == p;
    Identities(Mul(Eval(p, x), x));
    LinearStep(Eval(p, x), x, r);
  }

  lemma LinearStep(e: Scalar, x: Scalar, r: Scalar)
    ensures Add(Mul(e, x), Mul(Neg(r), e)) == Mul(Sub(x, r), e)
  {
    var e': int, x': int, r': int := e, x, r;
    OfScalar(e); OfScalar(x); OfScalar(r);
    OfMul(e', x'); OfNeg(r'); OfMul((-r'), e'); OfAdd((e' * x'), ((-r') * e')); OfAdd(x', (-r'));
    OfMul((x' + (-r')), e');
    assert (e' * x') + ((-r') * e') == (x' + (-r')) * e';
  }

  // A polynomial with too many roots vanishes

  /** The quotient of p - p(r) by X - r. */
  function DividedBy(p: seq<Scalar>, r: Scalar): seq<Scalar> {
    if |p| <= 1 then [] else [Eval(p[1..], r)] + DividedBy(p[1..], r)
  }

  lemma {:induction false} FactorTheorem(p: seq<Scalar>, r: Scalar, x: Scalar)
    ensures |DividedBy(p, r)| == if p == [] then 0 else |p| - 1
    ensures Eval(p, x) == Add(Eval(p, r), Mul(Sub(x, r), Eval(DividedBy(p, r), x)))
  {
    if |p| <= 1 {
      Identities(Sub(x, r));
      Identities(Eval(p, r));
      Commute(0, x); Commute(0, r);
      Identities(x); Identities(r);
    } else {
      FactorTheorem(p[1..], r, x);
      assert DividedBy(p, r)[1..] == DividedBy(p[1..], r);
      FactorStep(Eval(p[1..], x), Eval(p[1..], r), Eval(DividedBy(p[1..], r), x), x, r, p[0]);
    }
  }

  lemma FactorStep(e: Scalar, f: Scalar, q: Scalar, x: Scalar, r: Scalar, a: Scalar)
    requires e == Add(f, Mul(Sub(x, r), q))
    ensures Add(Mul(e, x), a) == Add(Add(Mul(f, r), a), Mul(Sub(x, r), Add(Mul(q, x), f)))
  {
    var f': int, x': int, r': int, q': int, a': int := f, x, r, q, a;
    OfScalar(f); OfScalar(x); OfScalar(r); OfScalar(q); OfScalar(a);
    OfNeg(r'); OfAdd(x', (-r')); OfMul((x' + (-r')), q'); OfAdd(f', ((x' + (-r')) * q'));
    OfMul((f' + ((x' + (-r')) * q')), x'); OfAdd(((f' + ((x' + (-r')) * q')) * x'), a'); OfMul(f', r');
    OfAdd((f' * r'), a'); OfMul(q', x'); OfAdd((q' * x'), f'); OfMul((x' + (-r')), ((q' * x') + f'));
    OfAdd(((f' * r') + a'), ((x' + (-r')) * ((q' * x') + f')));
    assert ((f' + ((x' + (-r')) * q')) * x') + a' == ((f' * r') + a') + ((x' + (-r')) * ((q' * x') + f'));
  }

  lemma {:induction false} TooManyRoots(p: seq<Scalar>, xs: seq<Scalar>, x: Scalar)
    requires |p| <= |xs| && NoRepeats(xs)
    requires forall i :: 0 <= i < |p| ==> Eval(p, xs[i]) == 0
    ensures Eval(p, x) == 0
    decreases |p|
  {
    if p != [] {
      var r := xs[0];
      var q := DividedBy(p, r);
      FactorTheorem(p, r, x);
      forall i | 0 <= i < |q| ensures Eval(q, xs[1..][i]) == 0 {
        var y := xs[i + 1];
        FactorTheorem(p, r, y);
        LeftZero(Mul(Sub(y, r), Eval(q, y)));
        if Sub(y, r) == 0 {
          DifferenceZero(y, r);
          assert false;
        }
        NoZeroDivisors(Sub(y, r), Eval(q, y));
      }
      TooManyRoots(q, xs[1..], x);
      Identities(Sub(x, r));
      Identities(0);
    }
  }

  lemma LeftZero(a: Scalar)
    ensures Add(0, a) == a
  {
    Commute(0, a);
    Identities(a);
  }

  /** Two polynomials of degree below n that agree at n points agree everywhere. */
  lemma AgreeEverywhere(p: seq<Scalar>, q: seq<Scalar>, xs: seq<Scalar>)
    requires |p| == |q| <= |xs| && NoRepeats(xs)
    requires forall i :: 0 <= i < |p| ==> Eval(p, xs[i]) == Eval(q, xs[i])
    ensures SameFunction(p, q)
  {
    var d := Combine(p, Neg(1), q);
    forall i | 0 <= i < |p| ensures Eval(d, xs[i]) == 0 {
      EvalCombine(p, Neg(1), q, xs[i]);
      MinusOne(Eval(p, xs[i]), Eval(q, xs[i]));
      Identities(Eval(p, xs[i]));
    }
    forall x: Scalar ensures Eval(p, x) == Eval(q, x) {
      TooManyRoots(d, xs, x);
      EvalCombine(p, Neg(1), q, x);
      MinusOne(Eval(p, x), Eval(q, x));
      DifferenceZero(Eval(p, x), Eval(q, x));
    }
  }

  lemma MinusOne(a: Scalar, b: Scalar)
    ensures Add(a, Mul(Neg(1), b)) == Sub(a, b)
  {
    OfScalar(a); OfScalar(b); OfScalar(1);
    OfNeg(1); OfNeg(b); OfMul(-1, b);
  }

  // Lagrange interpolation at zero

  /** x_k - x for the x_k in others: the factors of a Lagrange denominator. */
  function Differences(others: seq<Scalar>, x: Scalar): seq<Scalar> {
    seq(|others|, k requires 0 <= k < |others| => Sub(others[k], x))
  }

  lemma DenominatorNonZero(others: seq<Scalar>, x: Scalar)
    requires x !in others
    ensures Prod(Differences(others, x)) != 0
  {
    forall k | 0 <= k < |others| ensures Differences(others, x)[k] != 0 {
      if Sub(others[k], x) == 0 {
        DifferenceZero(others[k], x);
        assert false;
      }
    }
    ProdNonZero(Differences(others, x));
  }

  /** The Lagrange coefficient of x among the other points. */
  function Lagrange(x: Scalar, others: seq<Scalar>): Scalar
    requires x !in others
  {
    DenominatorNonZero(others, x);
    Mul(Prod(others), Inv(Prod(Differences(others, x))))
  }

  lemma DistinctWithout(xs: seq<Scalar>, j: nat)
    requires NoRepeats(xs) && j < |xs|
    ensures xs[j] !in Without(xs, j)
  {}

  /** The terms of the reconstruction at zero from the values ys at the points xs. */
  function Terms(xs: seq<Scalar>, ys: seq<Scalar>): seq<Scalar>
    requires |xs| == |ys|
    requires NoRepeats(xs)
  {
    seq(|xs|, j requires 0 <= j < |xs| => (DistinctWithout(xs, j); Mul(Lagrange(xs[j], Without(xs, j)), ys[j])))
  }

  // The interpolating polynomial

  /** The product of X - r over the r in others. */
  function Basis(others: seq<Scalar>): seq<Scalar> {
    if others == [] then [1] else TimesLinear(Basis(others[..|others| - 1]), others[|others| - 1])
  }

  function FromPoint(x: Scalar, others: seq<Scalar>): seq<Scalar> {
    seq(|others|, k requires 0 <= k < |others| => Sub(x, others[k]))
  }

  lemma {:induction false} EvalBasis(others: seq<Scalar>, x: Scalar)
    ensures |Basis(others)| == |others| + 1
    ensures Eval(Basis(others), x) == Prod(FromPoint(x, others))
  {
    var n := |others|;
    if n == 0 {
      EvalConstant(1, x);
    } else {
      EvalBasis(others[..n - 1], x);
      EvalTimesLinear(Basis(others[..n - 1]), others[n - 1], x);
      assert FromPoint(x, others)[..n - 1] == FromPoint(x, others[..n - 1]);
      Commute(Sub(x, others[n - 1]), Prod(FromPoint(x, others[..n - 1])));
    }
  }

  lemma EvalConstant(c: Scalar, x: Scalar)
    ensures Eval([c], x) == c
  {
    Commute(0, x);
    Identities(x);
    LeftZero(c);
  }

  /** The factors of numerator and denominator change sign together. */
  lemma {:induction false} SignsCancel(others: seq<Scalar>, x: Scalar)
    ensures Mul(Prod(FromPoint(0, others)), Prod(Differences(others, x)))
         == Mul(Prod(others), Prod(FromPoint(x, others)))
  {
    var n := |others|;
    if n > 0 {
      var o := others[n - 1];
      var rest := others[..n - 1];
      SignsCancel(rest, x);
      assert FromPoint(0, others)[..n - 1] == FromPoint(0, rest);
      assert FromPoint(x, others)[..n - 1] == FromPoint(x, rest);
      assert Differences(others, x)[..n - 1] == Differences(rest, x);
      SignStep(Prod(FromPoint(0, rest)), Prod(Differences(rest, x)), Prod(rest), Prod(FromPoint(x, rest)), o, x);
    }
  }

  lemma SignStep(a: Scalar, b: Scalar, c: Scalar, d: Scalar, o: Scalar, x: Scalar)
    requires Mul(a, b) == Mul(c, d)
    ensures Mul(Mul(a, Sub(0, o)), Mul(b, Sub(o, x))) == Mul(Mul(c, o), Mul(d, Sub(x, o)))
  {
    Regroup(a, Sub(0, o), b, Sub(o, x));
    Regroup(c, o, d, Sub(x, o));
    SignPair(o, x);
  }

  lemma Regroup(a: Scalar, b: Scalar, c: Scalar, d: Scalar)
    ensures Mul(Mul(a, b), Mul(c, d)) == Mul(Mul(a, c), Mul(b, d))
  {
    Ring();
    assert (a * b) * (c * d) == (a * c) * (b * d);
  }

  lemma SignPair(o: Scalar, x: Scalar)
    ensures Mul(Sub(0, o), Sub(o, x)) == Mul(o, Sub(x, o))
  {
    LeftZero(Neg(o));
    var o': int, x': int := o, x;
    OfScalar(o); OfScalar(x);
    OfNeg(o'); OfNeg(x'); OfAdd(o', (-x')); OfMul((-o'), (o' + (-x'))); OfAdd(x', (-o'));
    OfMul(o', (x' + (-o')));
    assert (-o') * (o' + (-x')) == o' * (x' + (-o'));
  }

  lemma FromPointNonZero(x: Scalar, others: seq<Scalar>)
    requires x !in others
    ensures Prod(FromPoint(x, others)) != 0
  {
    forall k | 0 <= k < |others| ensures FromPoint(x, others)[k] != 0 {
      if Sub(x, others[k]) == 0 {
        DifferenceZero(x, others[k]);
        assert false;
      }
    }
    ProdNonZero(FromPoint(x, others));
  }

  lemma FromPointZero(x: Scalar, others: seq<Scalar>)
    requires x in others
    ensures Prod(FromPoint(x, others)) == 0
  {
    var k :| 0 <= k < |others| && others[k] == x;
    Identities(x);
    ProdZero(FromPoint(x, others), k);
  }

  /** The weight of the basis polynomial of point j in the interpolating polynomial. */
  function Weight(xs: seq<Scalar>, ys: seq<Scalar>, j: nat): Scalar
    requires |xs| == |ys| && NoRepeats(xs) && j < |xs|
  {
    DistinctWithout(xs, j);
    FromPointNonZero(xs[j], Without(xs, j));
    Mul(Inv(Prod(FromPoint(xs[j], Without(xs, j)))), ys[j])
  }

  /** The part of the interpolating polynomial that comes from the first n points. */
  function Partial(xs: seq<Scalar>, ys: seq<Scalar>, n: nat): (p: seq<Scalar>)
    requires |xs| == |ys| && NoRepeats(xs) && n <= |xs|
    ensures |p| == |xs|
  {
    if n == 0 then seq(|xs|, _ => 0)
    else
      EvalBasis(Without(xs, n - 1), 0);
      Combine(Partial(xs, ys, n - 1), Weight(xs, ys, n - 1), Basis(Without(xs, n - 1)))
  }

  function PartialTerms(xs: seq<Scalar>, ys: seq<Scalar>, n: nat, x: Scalar): seq<Scalar>
    requires |xs| == |ys| && NoRepeats(xs) && n <= |xs|
  {
    seq(n, j requires 0 <= j < n => Mul(Weight(xs, ys, j), Prod(FromPoint(x, Without(xs, j)))))
  }

  lemma {:induction false} EvalPartial(xs: seq<Scalar>, ys: seq<Scalar>, n: nat, x: Scalar)
    requires |xs| == |ys| && NoRepeats(xs) && n <= |xs|
    ensures Eval(Partial(xs, ys, n), x) == Sum(PartialTerms(xs, ys, n, x))
  {
    if n == 0 {
      EvalZeros(Partial(xs, ys, 0), x);
    } else {
      EvalPartial(xs, ys, n - 1, x);
      EvalBasis(Without(xs, n - 1), x);
      EvalCombine(Partial(xs, ys, n - 1), Weight(xs, ys, n - 1), Basis(Without(xs, n - 1)), x);
      assert PartialTerms(xs, ys, n, x)[..n - 1] == PartialTerms(xs, ys, n - 1, x);
    }
  }

  function Interpolant(xs: seq<Scalar>, ys: seq<Scalar>): seq<Scalar>
    requires |xs| == |ys| && NoRepeats(xs)
  {
    Partial(xs, ys, |xs|)
  }

  lemma OtherTermsVanish(xs: seq<Scalar>, ys: seq<Scalar>, j: nat, m: nat)
    requires |xs| == |ys| && NoRepeats(xs) && m < |xs| && j < |xs| && j != m
    ensures PartialTerms(xs, ys, |xs|, xs[m])[j] == 0
  {
    assert Without(xs, j)[if m < j then m else m - 1] == xs[m];
    FromPointZero(xs[m], Without(xs, j));
    Identities(Weight(xs, ys, j));
  }

  lemma OnlyTerm(terms: seq<Scalar>, m: nat)
    requires m < |terms| && forall j :: 0 <= j < |terms| && j != m ==> terms[j] == 0
    ensures Sum(terms) == terms[m]
  {
    SumSplit(terms, m);
    forall i | 0 <= i < |terms| - 1 ensures Without(terms, m)[i] == 0 {
      assert Without(terms, m)[i] == terms[if i < m then i else i + 1];
    }
    SumZeros(Without(terms, m));
    LeftZero(terms[m]);
  }

  lemma InterpolantHits(xs: seq<Scalar>, ys: seq<Scalar>, m: nat)
    requires |xs| == |ys| && NoRepeats(xs) && m < |xs|
    ensures Eval(Interpolant(xs, ys), xs[m]) == ys[m]
  {
    EvalPartial(xs, ys, |xs|, xs[m]);
    forall j | 0 <= j < |xs| && j != m ensures PartialTerms(xs, ys, |xs|, xs[m])[j] == 0 {
      OtherTermsVanish(xs, ys, j, m);
    }
    OnlyTerm(PartialTerms(xs, ys, |xs|, xs[m]), m);
    DistinctWithout(xs, m);
    FromPointNonZero(xs[m], Without(xs, m));
    Undo(Prod(FromPoint(xs[m], Without(xs, m))), ys[m]);
  }

  lemma Undo(b: Scalar, y: Scalar)
    requires b != 0
    ensures Mul(Mul(Inv(b), y), b) == y
  {
    Commute(Mul(Inv(b), y), b);
    MulAssoc(b, Inv(b), y);
    Commute(1, y);
    Identities(y);
  }

  lemma CrossDivide(a: Scalar, d: Scalar, n: Scalar, b: Scalar, y: Scalar)
    requires d != 0 && b != 0 && Mul(a, d) == Mul(n, b)
    ensures Mul(Mul(Inv(b), y), a) == Mul(Mul(n, Inv(d)), y)
  {
    var ib, id := Inv(b), Inv(d);
    assert Mul(a, ib) == Mul(n, id) by {
      calc {
        Mul(n, id);
        { Identities(Mul(n, id)); }
        Mul(Mul(n, id), Mul(b, ib));
        { Regroup(n, id, b, ib); }
        Mul(Mul(n, b), Mul(id, ib));
        Mul(Mul(a, d), Mul(id, ib));
        { Regroup(a, d, id, ib); Regroup(a, d, ib, id); Commute(id, ib); }
        Mul(Mul(a, ib), Mul(d, id));
        { Identities(Mul(a, ib)); }
        Mul(a, ib);
      }
    }
    Exchange(ib, y, a);
    Commute(ib, a);
  }

  /** The interpolating polynomial at zero is the Lagrange sum. */
  lemma InterpolantAtZero(xs: seq<Scalar>, ys: seq<Scalar>)
    requires |xs| == |ys| && NoRepeats(xs)
    ensures Eval(Interpolant(xs, ys), 0) == Sum(Terms(xs, ys))
  {
    EvalPartial(xs, ys, |xs|, 0);
    forall j | 0 <= j < |xs| ensures PartialTerms(xs, ys, |xs|, 0)[j] == Terms(xs, ys)[j] {
      var others := Without(xs, j);
      DistinctWithout(xs, j);
      DenominatorNonZero(others, xs[j]);
      FromPointNonZero(xs[j], others);
      SignsCancel(others, xs[j]);
      CrossDivide(Prod(FromPoint(0, others)), Prod(Differences(others, xs[j])), Prod(others),
                  Prod(FromPoint(xs[j], others)), ys[j]);
    }
    assert PartialTerms(xs, ys, |xs|, 0) == Terms(xs, ys);
  }

  function Values(p: seq<Scalar>, xs: seq<Scalar>): seq<Scalar> {
    seq(|xs|, i requires 0 <= i < |xs| => Eval(p, xs[i]))
  }

  /** Shamir reconstruction: Lagrange interpolation recovers p(0) from any |p| distinct points. */
  lemma Reconstruction(p: seq<Scalar>, xs: seq<Scalar>)
    requires |p| == |xs| && NoRepeats(xs)
    ensures Sum(Terms(xs, Values(p, xs))) == Eval(p, 0)
  {
    var ys := Values(p, xs);
    forall m | 0 <= m < |xs| ensures Eval(p, xs[m]) == Eval(Interpolant(xs, ys), xs[m]) {
      InterpolantHits(xs, ys, m);
    }
    AgreeEverywhere(p, Interpolant(xs, ys), xs);
    InterpolantAtZero(xs, ys);
  }
}
