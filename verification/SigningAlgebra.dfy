/** The sums behind signing: Lagrange coefficients and totals do not depend on the order in which
    counterparties are listed, key shares add up to the key, and the broadcast shares to k * phi. */
module SigningAlgebra {
  import opened Outcomes
  import opened PrimeField
  import opened Sums
  import opened Polynomials
  import opened Hashes
  import opened Curve
  import opened Sequences
  import opened Protocols
  import opened ZeroShares
  import opened PartyStates
  import opened Signing

  // Lists of counterparties

  /** order lists every party of the group other than group[a] exactly once. */
  ghost predicate Lists(group: seq<PartyIndex>, a: nat, order: seq<PartyIndex>)
    requires a < |group|
  {
    NoRepeats(order) && OthersOf(group, a, order)
  }

  lemma ListsRest(group: seq<PartyIndex>, a: nat, order: seq<PartyIndex>)
    requires a < |group| && NoRepeats(group) && Lists(group, a, order)
    ensures multiset(order) == multiset(Without(group, a))
    ensures |order| == |group| - 1
  {
    var rest := Without(group, a);
    forall x ensures x in order <==> x in rest {
      if x in group && x != group[a] {
        var b :| 0 <= b < |group| && group[b] == x;
        assert rest[if b < a then b else b - 1] == x;
      }
    }
    SameElements(order, rest);
    assert |order| == |multiset(order)| == |multiset(rest)| == |rest|;
  }

  /** A sum over counterparties in any order is a row sum over the group with zero for the party itself. */
  lemma OrderIsRow(group: seq<PartyIndex>, a: nat, order: seq<PartyIndex>, values: seq<Scalar>, row: seq<Scalar>)
    requires a < |group| && NoRepeats(group) && Lists(group, a, order)
    requires |values| == |order| && |row| == |group| && row[a] == 0
    requires forall k, b :: 0 <= k < |order| && 0 <= b < |group| && order[k] == group[b] ==> values[k] == row[b]
    ensures Sum(values) == Sum(row)
  {
    hide Sum;
    var f := EntryAt(group, row);
    var rest := Without(group, a);
    ListsRest(group, a, order);
    MappedPermuted(f, order, rest);
    Permuted(Mapped(f, order), Mapped(f, rest));
    assert Mapped(f, order) == values by {
      forall k | 0 <= k < |order| ensures Mapped(f, order)[k] == values[k] {
        assert order[k] in order;
      }
    }
    assert Mapped(f, rest) == Without(row, a) by {
      forall k | 0 <= k < |rest| ensures Mapped(f, rest)[k] == Without(row, a)[k] {
        EntryIs(group, row, if k < a then k else k + 1);
      }
    }
    SumSplit(row, a);
    Identities(Sum(Without(row, a)));
  }

  /** The entry of a party of the group, as a function of the party. */
  ghost function EntryAt(group: seq<PartyIndex>, row: seq<Scalar>): PartyIndex -> Scalar
    requires |row| == |group|
  {
    j => if exists b :: 0 <= b < |group| && group[b] == j then row[IndexOf(group, j)] else 0
  }

  lemma EntryIs(group: seq<PartyIndex>, row: seq<Scalar>, b: nat)
    requires |row| == |group| && NoRepeats(group) && b < |group|
    ensures EntryAt(group, row)(group[b]) == row[b]
  {}

  ghost function IndexOf(group: seq<PartyIndex>, j: PartyIndex): (b: nat)
    requires exists b :: 0 <= b < |group| && group[b] == j
    ensures b < |group| && group[b] == j
  {
    var b :| 0 <= b < |group| && group[b] == j;
    b
  }

  // Key shares

  function AsScalar(c: PartyIndex): Scalar { c }

  function Difference(me: PartyIndex): PartyIndex -> Scalar {
    c => Sub(c, me)
  }

  lemma DenominatorMapped(me: PartyIndex, cs: seq<PartyIndex>)
    ensures Differences(IndexScalars(cs), me) == Mapped(Difference(me), cs)
    ensures IndexScalars(cs) == Mapped(AsScalar, cs)
  {
    forall k | 0 <= k < |cs| ensures Mapped(AsScalar, cs)[k] == IndexScalars(cs)[k] {
      assert AsScalar(cs[k]) == cs[k];
    }
  }

  /** The denominator is zero exactly if the party lists itself. */
  lemma DenominatorZero(me: PartyIndex, cs: seq<PartyIndex>)
    ensures LagrangeDenominator(me, cs) == 0 <==> me in cs
  {
    var xs := IndexScalars(cs);
    if me in cs {
      var k :| 0 <= k < |cs| && cs[k] == me;
      Identities(me);
      ProdZero(Differences(xs, me), k);
    } else {
      DenominatorNonZero(xs, me);
    }
  }

  /** The interpolation summand computed from any listing of the counterparties. */
  lemma KeyShareIsTerm(party: Party, group: seq<PartyIndex>, a: nat, order: seq<PartyIndex>, zeta: Scalar)
    requires a < |group| && NoRepeats(group) && Lists(group, a, order) && party.party_index == group[a]
    ensures var xs := IndexScalars(group);
      && NoRepeats(xs) && xs[a] !in Without(xs, a)
      && KeyShare(party, order, zeta) == Some(Add(Mul(Lagrange(xs[a], Without(xs, a)), party.poly_point), zeta))
  {
    var xs := IndexScalars(group);
    var me := group[a];
    var rest := Without(group, a);
    DistinctWithout(xs, a);
    assert IndexScalars(rest) == Without(xs, a);
    ListsRest(group, a, order);
    MappedPermuted(Difference(me), order, rest);
    MappedPermuted(AsScalar, order, rest);
    DenominatorMapped(me, order);
    DenominatorMapped(me, rest);
    Permuted(Differences(IndexScalars(order), me), Differences(IndexScalars(rest), me));
    Permuted(IndexScalars(order), IndexScalars(rest));
    assert me !in order;
    DenominatorZero(me, order);
    Commute(party.poly_point, Lagrange(xs[a], Without(xs, a)));
  }

  ghost function KeyShares(ps: Parties, group: seq<PartyIndex>, orders: seq<seq<PartyIndex>>, sid: Bytes): (s: seq<Scalar>)
    requires |orders| == |group| && forall a :: 0 <= a < |group| ==> group[a] in ps
    ensures |s| == |group|
  {
    seq<Scalar>(|group|, a requires 0 <= a < |group| =>
      var share := KeyShare(ps[group[a]], orders[a], Zeta(ps[group[a]].zero_share, orders[a], sid));
      if share.Some? then share.value else 0)
  }

  /** For every set of t parties, however each lists the others, no Lagrange denominator is zero and the
      key shares l_i * p(i) + zeta_i add up to p(0). */
  lemma KeySharesSum(ps: Parties, parameters: ValidParameters, p: seq<Scalar>, party_sid: Bytes, chain_code: ChainCode,
                     group: seq<PartyIndex>, orders: seq<seq<PartyIndex>>, sid: Bytes)
    requires ConsistentParties(ps, parameters, p, party_sid, chain_code)
    requires NoRepeats(group) && |group| == |orders| == parameters.threshold
    requires forall a :: 0 <= a < |group| ==> group[a] in ps && Lists(group, a, orders[a])
    ensures forall a :: 0 <= a < |group| ==> LagrangeDenominator(group[a], orders[a]) != 0
    ensures Sum(KeyShares(ps, group, orders, sid)) == Eval(p, 0)
  {
    hide Lagrange, Zeta, KeyShare, PairwiseSeeds, AllPaired, LagrangeDenominator, Eval;
    var n := |group|;
    var xs := IndexScalars(group);
    var zetas := Zetas(ZeroSharesOf(ps), group, orders, sid);
    ZeroSharesCancel(ZeroSharesOf(ps), group, orders, sid);
    forall a | 0 <= a < n
      ensures LagrangeDenominator(group[a], orders[a]) != 0
      ensures KeyShares(ps, group, orders, sid)[a] == Add(Terms(xs, Values(p, xs))[a], zetas[a])
    {
      DenominatorZero(group[a], orders[a]);
      KeyShareIsTerm(ps[group[a]], group, a, orders[a], zetas[a]);
    }
    Reconstruction(p, xs);
    SumAdd(Terms(xs, Values(p, xs)), zetas, KeyShares(ps, group, orders, sid));
    Identities(Eval(p, 0));
  }

  // The broadcast shares

  /** c[i][j] is the mask of party j towards i, m[i][j] party i's output as sender for j, and r[i][j] its
      output as receiver from j. */
  ghost predicate Exchanges(n: nat, ks: seq<Scalar>, c: seq<seq<Scalar>>, m: seq<seq<Scalar>>, r: seq<seq<Scalar>>) {
    && |ks| == n && IsTable(c, n, n) && IsTable(m, n, n) && IsTable(r, n, n)
    && forall i, j :: 0 <= i < n && 0 <= j < n ==> Add(m[i][j], r[j][i]) == Mul(ks[i], c[i][j])
  }

  /** Party i's share: k_i * (phi - its masks) plus all its outputs. */
  ghost predicate SharesFrom(n: nat, ks: seq<Scalar>, phi: Scalar, c: seq<seq<Scalar>>, m: seq<seq<Scalar>>,
                             r: seq<seq<Scalar>>, us: seq<Scalar>)
  {
    && |us| == |ks| == n && IsTable(c, n, n) && IsTable(m, n, n) && IsTable(r, n, n)
    && forall i :: 0 <= i < n ==> us[i] == Add(Mul(ks[i], Sub(phi, Sum(c[i]))), Add(Sum(m[i]), Sum(r[i])))
  }

  lemma SharesAddUp(n: nat, ks: seq<Scalar>, phi: Scalar, c: seq<seq<Scalar>>, m: seq<seq<Scalar>>, r: seq<seq<Scalar>>,
                    us: seq<Scalar>)
    requires Exchanges(n, ks, c, m, r) && SharesFrom(n, ks, phi, c, m, r, us)
    ensures Sum(us) == Mul(Sum(ks), phi)
  {
    hide Sum;
    var t := seq(n, i requires 0 <= i < n => seq(n, j requires 0 <= j < n => r[j][i]));
    DoubleSum(r, t, n, n);
    // kc[i] = k_i * sum of c[i] = sum of m[i] + sum of column i of r
    var kc := seq<Scalar>(n, i requires 0 <= i < n => Mul(ks[i], Sum(c[i])));
    forall i | 0 <= i < n ensures kc[i] == Add(RowSums(m)[i], RowSums(t)[i]) {
      SumScaled(ks[i], c[i]);
      SumAdd(m[i], t[i], Scaled(ks[i], c[i]));
    }
    SumAdd(RowSums(m), RowSums(t), kc);
    var kphi := Scaled(phi, ks);
    SumScaled(phi, ks);
    Commute(phi, Sum(ks));
    var mr := seq<Scalar>(n, i requires 0 <= i < n => Add(Sum(m[i]), Sum(r[i])));
    SumAdd(RowSums(m), RowSums(r), mr);
    var left := seq<Scalar>(n, i requires 0 <= i < n => Add(us[i], kc[i]));
    forall i | 0 <= i < n ensures left[i] == Add(kphi[i], mr[i]) {
      DistributeSub(ks[i], phi, Sum(c[i]));
      Commute(phi, ks[i]);
      AddBack(kphi[i], kc[i], mr[i]);
    }
    SumAdd(us, kc, left);
    SumAdd(kphi, mr, left);
    CancelRight(Sum(us), Sum(kc), Sum(kphi));
  }

  lemma AddBack(a: Scalar, b: Scalar, c: Scalar)
    ensures Add(Add(Sub(a, b), c), b) == Add(a, c)
  {
    Ring();
  }

  lemma CancelRight(a: Scalar, b: Scalar, c: Scalar)
    requires Add(a, b) == Add(c, b)
    ensures a == c
  {
    assert Sub(Add(a, b), b) == a by { Ring(); }
    assert Sub(Add(c, b), b) == c by { Ring(); }
  }
}
