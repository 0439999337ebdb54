/** Finite sums and products of scalars. */
module Sums {
  import opened PrimeField
  import opened Sequences

  function Sum(s: seq<Scalar>): Scalar {
    if s == [] then 0 else Add(Sum(s[..|s| - 1]), s[|s| - 1])
  }

  function Prod(s: seq<Scalar>): Scalar {
    if s == [] then 1 else Mul(Prod(s[..|s| - 1]), s[|s| - 1])
  }

  function Scaled(c: Scalar, s: seq<Scalar>): seq<Scalar> {
    seq(|s|, i requires 0 <= i < |s| => Mul(c, s[i]))
  }

  lemma {:induction false} SumAdd(a: seq<Scalar>, b: seq<Scalar>, c: seq<Scalar>)
    requires |a| == |b| == |c|
    requires forall i :: 0 <= i < |a| ==> c[i] == Add(a[i], b[i])
    ensures Sum(c) == Add(Sum(a), Sum(b))
  {
    var n := |a|;
    if n == 0 {
      Identities(0);
    } else {
      SumAdd(a[..n - 1], b[..n - 1], c[..n - 1]);
      Interchange(Sum(a[..n - 1]), Sum(b[..n - 1]), a[n - 1], b[n - 1]);
    }
  }

  lemma Interchange(a: Scalar, b: Scalar, c: Scalar, d: Scalar)
    ensures Add(Add(a, b), Add(c, d)) == Add(Add(a, c), Add(b, d))
  {
    Ring();
  }

  lemma {:induction false} SumScaled(c: Scalar, s: seq<Scalar>)
    ensures Sum(Scaled(c, s)) == Mul(c, Sum(s))
  {
    var n := |s|;
    if n == 0 {
      Identities(c);
    } else {
      SumScaled(c, s[..n - 1]);
      assert Scaled(c, s)[..n - 1] == Scaled(c, s[..n - 1]);
      Distribute(c, Sum(s[..n - 1]), s[n - 1]);
    }
  }

  lemma Distribute(a: Scalar, b: Scalar, c: Scalar)
    ensures Mul(a, Add(b, c)) == Add(Mul(a, b), Mul(a, c))
  {
    Ring();
    assert a * (b + c) == a * b + a * c;
  }

  lemma {:induction false} SumZeros(s: seq<Scalar>)
    requires forall i :: 0 <= i < |s| ==> s[i] == 0
    ensures Sum(s) == 0
  {
    if s != [] {
      SumZeros(s[..|s| - 1]);
      Identities(0);
    }
  }

  lemma {:induction false} SumSplit(s: seq<Scalar>, i: nat)
    requires i < |s|
    ensures Sum(s) == Add(Sum(Without(s, i)), s[i])
  {
    var n := |s|;
    if i < n - 1 {
      SumSplit(s[..n - 1], i);
      var w := Without(s, i);
      assert w[..n - 2] == Without(s[..n - 1], i);
      Exchange(Sum(w[..n - 2]), s[i], s[n - 1]);
    } else {
      assert Without(s, i) == s[..n - 1];
    }
  }

  lemma Exchange(a: Scalar, b: Scalar, c: Scalar)
    ensures Add(Add(a, b), c) == Add(Add(a, c), b)
    ensures Mul(Mul(a, b), c) == Mul(Mul(a, c), b)
  {
    Ring();
    assert (a * b) * c == (a * c) * b;
  }

  lemma {:induction false} ProdSplit(s: seq<Scalar>, i: nat)
    requires i < |s|
    ensures Prod(s) == Mul(Prod(Without(s, i)), s[i])
  {
    var n := |s|;
    if i < n - 1 {
      ProdSplit(s[..n - 1], i);
      var w := Without(s, i);
      assert w[..n - 2] == Without(s[..n - 1], i);
      Exchange(Prod(w[..n - 2]), s[i], s[n - 1]);
    } else {
      assert Without(s, i) == s[..n - 1];
    }
  }

  lemma FindElement<T>(s: seq<T>, x: T) returns (i: nat)
    requires x in multiset(s)
    ensures i < |s| && s[i] == x
  {
    i :| 0 <= i < |s| && s[i] == x;
  }

  /** Neither a sum nor a product depends on the order of its terms. */
  lemma {:induction false} Permuted(s: seq<Scalar>, t: seq<Scalar>)
    requires multiset(s) == multiset(t)
    ensures Sum(s) == Sum(t) && Prod(s) == Prod(t)
    decreases |s|
  {
    assert |s| == |multiset(s)| == |multiset(t)| == |t|;
    if s != [] {
      var n := |s|;
      var x := s[n - 1];
      assert x in multiset(s);
      var i := FindElement(t, x);
      WithoutMultiset(s, n - 1);
      WithoutMultiset(t, i);
      assert Without(s, n - 1) == s[..n - 1];
      Permuted(s[..n - 1], Without(t, i));
      SumSplit(t, i);
      ProdSplit(t, i);
    }
  }

  lemma {:induction false} ProdNonZero(s: seq<Scalar>)
    requires forall i :: 0 <= i < |s| ==> s[i] != 0
    ensures Prod(s) != 0
  {
    if s != [] {
      ProdNonZero(s[..|s| - 1]);
      if Prod(s) == 0 {
        NoZeroDivisors(Prod(s[..|s| - 1]), s[|s| - 1]);
        assert false;
      }
    }
  }

  lemma {:induction false} ProdZero(s: seq<Scalar>, i: nat)
    requires i < |s| && s[i] == 0
    ensures Prod(s) == 0
  {
    ProdSplit(s, i);
    Identities(Prod(Without(s, i)));
  }

  // Double sums

  /** Row sums of a table. */
  function RowSums(m: seq<seq<Scalar>>): seq<Scalar> {
    seq(|m|, i requires 0 <= i < |m| => Sum(m[i]))
  }

  ghost predicate IsTable(m: seq<seq<Scalar>>, rows: nat, columns: nat) {
    |m| == rows && forall i :: 0 <= i < rows ==> |m[i]| == columns
  }

  /** n is the transpose of m. */
  ghost predicate Transposed(m: seq<seq<Scalar>>, n: seq<seq<Scalar>>, rows: nat, columns: nat) {
    IsTable(m, rows, columns) && IsTable(n, columns, rows)
    && forall i, j :: 0 <= i < rows && 0 <= j < columns ==> m[i][j] == n[j][i]
  }

  lemma {:induction false} DoubleSum(m: seq<seq<Scalar>>, n: seq<seq<Scalar>>, rows: nat, columns: nat)
    requires Transposed(m, n, rows, columns)
    ensures Sum(RowSums(m)) == Sum(RowSums(n))
    decreases rows
  {
    if rows == 0 {
      SumZeros(RowSums(n));
    } else {
      var n' := seq(columns, j requires 0 <= j < columns => n[j][..rows - 1]);
      DoubleSum(m[..rows - 1], n', rows - 1, columns);
      assert RowSums(m)[..rows - 1] == RowSums(m[..rows - 1]);
      assert m[rows - 1] == seq(columns, j requires 0 <= j < columns => n[j][rows - 1]);
      SumAdd(RowSums(n'), m[rows - 1], RowSums(n));
    }
  }

  /** A table that changes sign under transposition and has a zero diagonal sums to zero. */
  lemma Antisymmetric(m: seq<seq<Scalar>>, n: nat)
    requires IsTable(m, n, n)
    requires forall i, j :: 0 <= i < n && 0 <= j < n && i != j ==> m[i][j] == Neg(m[j][i])
    requires forall i :: 0 <= i < n ==> m[i][i] == 0
    ensures Sum(RowSums(m)) == 0
  {
    var t := seq(n, j requires 0 <= j < n => seq(n, i requires 0 <= i < n => m[i][j]));
    DoubleSum(m, t, n, n);
    var zeros := seq(n, _ => 0);
    forall i | 0 <= i < n ensures Add(Sum(m[i]), Sum(t[i])) == 0 {
      var z := seq(n, _ => 0);
      forall j | 0 <= j < n ensures Add(m[i][j], t[i][j]) == 0 {
        Opposite(m[j][i]);
        Identities(0);
      }
      SumAdd(m[i], t[i], z);
      SumZeros(z);
    }
    SumAdd(RowSums(m), RowSums(t), zeros);
    SumZeros(zeros);
    OwnOpposite(Sum(RowSums(m)));
  }

  lemma Opposite(a: Scalar)
    ensures Add(Neg(a), a) == 0 && Add(a, Neg(a)) == 0
  {
    Commute(a, Neg(a));
    Identities(a);
  }

  lemma OwnOpposite(a: Scalar)
    requires Add(a, a) == 0
    ensures a == 0
  {
    assert Unfold(a, a);
    assert IsPrime(Q) && 2 < Q;
    if a > 0 {
      assert a + a == 1 * Q + (a + a - Q);
      if a + a < Q {
        RemainderUnique(Q, a + a, 0, a + a);
      } else {
        RemainderUnique(Q, a + a, 1, a + a - Q);
        assert Q == 2 * a;
        RemainderUnique(2, Q, a, 0);
      }
    }
  }
}
