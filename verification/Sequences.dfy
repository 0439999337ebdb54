/** Sequences up to order. */
module Sequences {

  function Mapped<T, U>(f: T -> U, s: seq<T>): (r: seq<U>)
    ensures |r| == |s|
  {
    seq(|s|, i requires 0 <= i < |s| => f(s[i]))
  }

  lemma MappedCons<T, U>(f: T -> U, s: seq<T>)
    requires s != []
    ensures Mapped(f, s) == [f(s[0])] + Mapped(f, s[1..])
  {}

  ghost predicate NoRepeats<T>(s: seq<T>) {
    forall i, j :: 0 <= i < j < |s| ==> s[i] != s[j]
  }

  function Without<T>(s: seq<T>, i: nat): (r: seq<T>)
    requires i < |s|
    ensures |r| == |s| - 1
  {
    s[..i] + s[i + 1..]
  }

  lemma WithoutMultiset<T>(s: seq<T>, i: nat)
    requires i < |s|
    ensures multiset(Without(s, i)) == multiset(s) - multiset{s[i]}
  {
    assert s == s[..i] + [s[i]] + s[i + 1..];
  }

  /** Applying a function keeps two sequences rearrangements of each other. */
  lemma {:induction false} MappedPermuted<T, U>(f: T -> U, s: seq<T>, t: seq<T>)
    requires multiset(s) == multiset(t)
    ensures multiset(Mapped(f, s)) == multiset(Mapped(f, t))
    decreases |s|
  {
    assert |s| == |multiset(s)| == |multiset(t)| == |t|;
    if s != [] {
      assert s[0] in multiset(t);
      var i :| 0 <= i < |t| && t[i] == s[0];
      WithoutMultiset(s, 0);
      WithoutMultiset(t, i);
      MappedPermuted(f, Without(s, 0), Without(t, i));
      assert Mapped(f, Without(s, 0)) == Without(Mapped(f, s), 0);
      assert Mapped(f, Without(t, i)) == Without(Mapped(f, t), i);
      WithoutMultiset(Mapped(f, s), 0);
      WithoutMultiset(Mapped(f, t), i);
      assert multiset(Mapped(f, s)) == multiset(Mapped(f, s)) - multiset{f(s[0])} + multiset{f(s[0])};
      assert multiset(Mapped(f, t)) == multiset(Mapped(f, t)) - multiset{f(s[0])} + multiset{f(s[0])};
    }
  }

  lemma RepeatCounts<T>(s: seq<T>, i: nat, j: nat)
    requires i < j < |s| && s[i] == s[j]
    ensures multiset(s)[s[i]] >= 2
  {
    assert s == s[..j] + s[j..];
    assert s[i] == s[..j][i] && s[j] == s[j..][0];
    assert s[i] in multiset(s[..j]) && s[i] in multiset(s[j..]);
  }

  lemma {:induction false} CountRepeats<T>(s: seq<T>, x: T)
    requires NoRepeats(s)
    ensures multiset(s)[x] <= 1
  {
    if s != [] {
      var n := |s|;
      assert s == s[..n - 1] + [s[n - 1]];
      CountRepeats(s[..n - 1], x);
    }
  }

  /** Having no repetitions does not depend on order. */
  lemma NoRepeatsPermuted<T>(s: seq<T>, t: seq<T>)
    requires multiset(s) == multiset(t) && NoRepeats(s)
    ensures NoRepeats(t)
  {
    forall i, j | 0 <= i < j < |t| ensures t[i] != t[j] {
      if t[i] == t[j] {
        RepeatCounts(t, i, j);
        CountRepeats(s, t[i]);
        assert false;
      }
    }
  }

  lemma NoRepeatsCons<T>(x: T, tail: seq<T>)
    ensures NoRepeats([x] + tail) <==> NoRepeats(tail) && x !in tail
  {
    var s := [x] + tail;
    assert forall i :: 0 <= i < |tail| ==> s[i + 1] == tail[i];
    if NoRepeats(s) {
      forall i, j | 0 <= i < j < |tail| ensures tail[i] != tail[j] {
        assert s[i + 1] != s[j + 1];
      }
      forall i | 0 <= i < |tail| ensures tail[i] != x {
        assert s[0] != s[i + 1];
      }
    }
  }

  /** As many different elements of b as b is long: every element of b exactly once. */
  lemma Pigeonhole<T>(a: seq<T>, b: seq<T>)
    requires |a| == |b| && NoRepeats(a) && forall x :: x in a ==> x in b
    ensures multiset(a) == multiset(b)
  {
    var rest := multiset(b) - multiset(a);
    forall x ensures multiset(a)[x] <= multiset(b)[x] {
      CountRepeats(a, x);
      assert x in multiset(a) <==> x in a;
      assert x in multiset(b) <==> x in b;
    }
    assert multiset(b) == multiset(a) + rest;
    assert |rest| == 0;
  }

  /** Sequences without repetition and with the same elements are rearrangements of each other. */
  lemma SameElements<T>(a: seq<T>, b: seq<T>)
    requires NoRepeats(a) && NoRepeats(b) && forall x :: x in a <==> x in b
    ensures multiset(a) == multiset(b)
  {
    forall x ensures multiset(a)[x] == multiset(b)[x] {
      CountRepeats(a, x);
      CountRepeats(b, x);
      assert x in multiset(a) <==> x in a;
      assert x in multiset(b) <==> x in b;
    }
  }

  ghost function Elements<T>(s: seq<T>): set<T> {
    set c | c in s
  }

  lemma {:induction false} ElementCount<T>(s: seq<T>)
    requires NoRepeats(s)
    ensures |Elements(s)| == |s|
  {
    if s != [] {
      var k := |s| - 1;
      ElementCount(s[..k]);
      assert s == s[..k] + [s[k]];
      assert Elements(s) == Elements(s[..k]) + {s[k]};
      assert s[k] !in s[..k];
    }
  }
}
