/** Shamir sharing over consecutive windows of parties: agreement at zero of all windows of t parties
    is the same as all shares lying on one polynomial with t coefficients. */
module Shamir {
  import opened Sequences
  import opened PrimeField
  import opened Sums
  import opened Polynomials

  const MAX_PARTIES: nat := 255

  /** The count party indices from first on, as scalars. */
  function Indices(first: nat, count: nat): (xs: seq<Scalar>)
    requires first + count <= MAX_PARTIES + 1
    ensures |xs| == count && NoRepeats(xs)
  {
    seq(count, k requires 0 <= k < count => first + k)
  }

  /** ys[j - 1] is the value of p at party j. */
  ghost predicate OnPolynomial(ys: seq<Scalar>, p: seq<Scalar>)
    requires |ys| <= MAX_PARTIES
  {
    forall j :: 1 <= j <= |ys| ==> ys[j - 1] == Eval(p, j)
  }

  function Window(ys: seq<Scalar>, i: nat, t: nat): (w: seq<Scalar>)
    requires 1 <= i && i - 1 + t <= |ys|
    ensures |w| == t
  {
    ys[i - 1..i - 1 + t]
  }

  /** The value at zero reconstructed from parties i to i + t - 1. */
  function WindowAtZero(ys: seq<Scalar>, i: nat, t: nat): Scalar
    requires |ys| <= MAX_PARTIES && 1 <= i && i - 1 + t <= |ys|
  {
    Sum(Terms(Indices(i, t), Window(ys, i, t)))
  }

  ghost predicate WindowsAgree(ys: seq<Scalar>, t: nat)
    requires t <= |ys| <= MAX_PARTIES
  {
    forall i :: 1 <= i <= |ys| - t + 1 ==> WindowAtZero(ys, i, t) == WindowAtZero(ys, 1, t)
  }

  function WindowPolynomial(ys: seq<Scalar>, i: nat, t: nat): (p: seq<Scalar>)
    requires |ys| <= MAX_PARTIES && 1 <= i && i - 1 + t <= |ys|
    ensures |p| == t
  {
    Interpolant(Indices(i, t), Window(ys, i, t))
  }

  lemma WindowPolynomialHits(ys: seq<Scalar>, i: nat, t: nat, j: nat)
    requires |ys| <= MAX_PARTIES && 1 <= i && i - 1 + t <= |ys| && i <= j < i + t
    ensures Eval(WindowPolynomial(ys, i, t), j) == ys[j - 1]
  {
    InterpolantHits(Indices(i, t), Window(ys, i, t), j - i);
  }

  lemma WindowPolynomialAtZero(ys: seq<Scalar>, i: nat, t: nat)
    requires |ys| <= MAX_PARTIES && 1 <= i && i - 1 + t <= |ys|
    ensures Eval(WindowPolynomial(ys, i, t), 0) == WindowAtZero(ys, i, t)
  {
    InterpolantAtZero(Indices(i, t), Window(ys, i, t));
  }

  /** Neighbouring windows overlap in t - 1 parties; agreeing at zero too, they are the same polynomial. */
  lemma NeighboursAgree(ys: seq<Scalar>, i: nat, t: nat)
    requires |ys| <= MAX_PARTIES && 1 <= i && 1 <= t && i + t <= |ys|
    requires WindowAtZero(ys, i, t) == WindowAtZero(ys, i + 1, t)
    ensures SameFunction(WindowPolynomial(ys, i, t), WindowPolynomial(ys, i + 1, t))
  {
    hide Eval, WindowPolynomial, WindowAtZero;
    var p, q := WindowPolynomial(ys, i, t), WindowPolynomial(ys, i + 1, t);
    WindowPolynomialAtZero(ys, i, t);
    WindowPolynomialAtZero(ys, i + 1, t);
    var xs := [0] + Indices(i + 1, t - 1);
    forall k | 0 <= k < t ensures Eval(p, xs[k]) == Eval(q, xs[k]) {
      if k > 0 {
        WindowPolynomialHits(ys, i, t, i + k);
        WindowPolynomialHits(ys, i + 1, t, i + k);
      }
    }
    AgreeEverywhere(p, q, xs);
  }

  lemma {:induction false} AllWindowsSame(ys: seq<Scalar>, t: nat, i: nat)
    requires 1 <= t <= |ys| <= MAX_PARTIES && WindowsAgree(ys, t) && 1 <= i <= |ys| - t + 1
    ensures SameFunction(WindowPolynomial(ys, 1, t), WindowPolynomial(ys, i, t))
  {
    if i > 1 {
      AllWindowsSame(ys, t, i - 1);
      assert WindowAtZero(ys, i - 1, t) == WindowAtZero(ys, 1, t) == WindowAtZero(ys, i, t);
      NeighboursAgree(ys, i - 1, t);
    }
  }

  lemma AgreementGivesPolynomial(ys: seq<Scalar>, t: nat)
    requires 1 <= t <= |ys| <= MAX_PARTIES && WindowsAgree(ys, t)
    ensures OnPolynomial(ys, WindowPolynomial(ys, 1, t))
  {
    var p := WindowPolynomial(ys, 1, t);
    forall j | 1 <= j <= |ys| ensures ys[j - 1] == Eval(p, j) {
      var i := if j <= |ys| - t + 1 then j else |ys| - t + 1;
      AllWindowsSame(ys, t, i);
      WindowPolynomialHits(ys, i, t, j);
      var x: Scalar := j;
      assert Eval(p, x) == Eval(WindowPolynomial(ys, i, t), x);
    }
  }

  lemma PolynomialAtZero(ys: seq<Scalar>, p: seq<Scalar>, i: nat)
    requires |ys| <= MAX_PARTIES && OnPolynomial(ys, p) && 1 <= i && i - 1 + |p| <= |ys|
    ensures WindowAtZero(ys, i, |p|) == Eval(p, 0)
  {
    var xs := Indices(i, |p|);
    forall k | 0 <= k < |p| ensures Window(ys, i, |p|)[k] == Values(p, xs)[k] {
      assert ys[(i + k) - 1] == Eval(p, i + k);
    }
    assert Window(ys, i, |p|) == Values(p, xs);
    Reconstruction(p, xs);
  }

  /** The sliding-window check decides whether the shares lie on one polynomial with t coefficients, and
      the common value is that polynomial at zero. */
  lemma WindowsDecide(ys: seq<Scalar>, t: nat)
    requires 1 <= t <= |ys| <= MAX_PARTIES
    ensures WindowsAgree(ys, t) <==> exists p: seq<Scalar> :: |p| == t && OnPolynomial(ys, p)
    ensures forall p: seq<Scalar> :: |p| == t && OnPolynomial(ys, p) ==> WindowAtZero(ys, 1, t) == Eval(p, 0)
  {
    hide Eval, WindowAtZero, WindowPolynomial, OnPolynomial;
    if WindowsAgree(ys, t) {
      AgreementGivesPolynomial(ys, t);
    }
    forall p: seq<Scalar>, i | |p| == t && OnPolynomial(ys, p) && 1 <= i <= |ys| - t + 1
      ensures WindowAtZero(ys, i, t) == Eval(p, 0)
    {
      PolynomialAtZero(ys, p, i);
    }
  }
}
