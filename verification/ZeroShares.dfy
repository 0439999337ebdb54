/** Shares of zero from pairwise seeds, and the hash commitments used to agree on the seeds. */
module ZeroShares {
  import opened Sequences
  import opened Bits
  import opened Outcomes
  import opened PrimeField
  import opened Sums
  import opened Polynomials
  import opened Hashes
  import opened Curve
  import opened OracleTags
  import opened PackedBits
  import opened Protocols

  // Commitments

  /** The commitment to a message under a salt. */
  function Commitment(msg: Bytes, salt: Bytes): HashOutput {
    TaggedHash(TAG_COMMITMENT, [salt, msg])
  }

  /** verify_commitment */
  method VerifyCommitment(msg: Bytes, commitment: HashOutput, salt: Bytes) returns (ok: bool)
    ensures ok == (commitment == Commitment(msg, salt))
  {
    var expected_commitment := TaggedHashOf(TAG_COMMITMENT, [salt, msg]);
    ok := commitment == expected_commitment;
  }

  // Seeds

  function SeedPairOf(me: PartyIndex, counterparty: PartyIndex, mine: HashOutput, theirs: HashOutput): SeedPair {
    SeedPair(me <= counterparty, counterparty, XorBytes(mine, theirs))
  }

  /** generate_seed_pair */
  method GenerateSeedPair(me: PartyIndex, counterparty: PartyIndex, seed_party: HashOutput, seed_counterparty: HashOutput)
    returns (r: SeedPair)
    ensures r == SeedPairOf(me, counterparty, seed_party, seed_counterparty)
  {
    var seed := new Byte[SECURITY](_ => 0);
    for i := 0 to SECURITY
      invariant forall k :: 0 <= k < i ==> seed[k] == XorByte(seed_party[k], seed_counterparty[k])
    {
      seed[i] := XorByte(seed_party[i], seed_counterparty[i]);
    }
    assert seed[..] == XorBytes(seed_party, seed_counterparty);
    r := SeedPair(me <= counterparty, counterparty, seed[..]);
  }

  // Computing a share

  function Fragment(sid: Bytes, seed: HashOutput): Scalar {
    TaggedScalar(TAG_ZERO_SHARE_FRAGMENT, [sid, seed])
  }

  /** The fragment of a pair with the sign of the party that owns the seed pair. */
  function Signed(sid: Bytes, pair: SeedPair): Scalar {
    if pair.lowest_index then Neg(Fragment(sid, pair.seed)) else Fragment(sid, pair.seed)
  }

  function Contribution(sid: Bytes, pair: SeedPair, counterparties: seq<PartyIndex>): Scalar {
    if pair.index_counterparty in counterparties then Signed(sid, pair) else 0
  }

  function Contributions(sid: Bytes, seeds: seq<SeedPair>, counterparties: seq<PartyIndex>): (c: seq<Scalar>)
    ensures |c| == |seeds|
  {
    seq(|seeds|, k requires 0 <= k < |seeds| => Contribution(sid, seeds[k], counterparties))
  }

  /** A party's share of zero among the given counterparties. */
  function Zeta(share: ZeroShare, counterparties: seq<PartyIndex>, sid: Bytes): Scalar {
    Sum(Contributions(sid, share.seeds, counterparties))
  }

  /** ZeroShare::compute */
  method ComputeZeta(zero_share: ZeroShare, counterparties: seq<PartyIndex>, sid: Bytes) returns (share: Scalar)
    ensures share == Zeta(zero_share, counterparties, sid)
  {
    hide Fragment;
    var seeds := zero_share.seeds;
    ghost var c := Contributions(sid, seeds, counterparties);
    share := 0;
    for k := 0 to |seeds|
      invariant share == Sum(c[..k])
    {
      assert c[..k + 1][..k] == c[..k];
      if seeds[k].index_counterparty !in counterparties {
        Identities(share);
        continue;
      }
      var fragment := Fragment(sid, seeds[k].seed);
      if seeds[k].lowest_index {
        share := Sub(share, fragment);
      } else {
        share := Add(share, fragment);
      }
    }
    assert c[..|seeds|] == c;
  }

  /** The hashes of the listed counterparties' seeds: those of the pairs in which the owner has the lowest index, or of the
      others. */
  ghost function PairHashes(share: ZeroShare, counterparties: seq<PartyIndex>, sid: Bytes, lowest: bool): (h: seq<Scalar>)
    ensures |h| == |share.seeds|
  {
    seq(|share.seeds|, k requires 0 <= k < |share.seeds| =>
      if share.seeds[k].index_counterparty in counterparties && share.seeds[k].lowest_index == lowest
      then TaggedScalar(TAG_ZERO_SHARE_FRAGMENT, [sid, share.seeds[k].seed]) else 0)
  }

  /** A share is what the pairs with the higher index contribute minus what those with the lowest index do. */
  lemma ZetaIs(share: ZeroShare, counterparties: seq<PartyIndex>, sid: Bytes)
    ensures Zeta(share, counterparties, sid)
            == Sub(Sum(PairHashes(share, counterparties, sid, false)), Sum(PairHashes(share, counterparties, sid, true)))
  {
    hide Add, Neg, TaggedScalar;
    var c := Contributions(sid, share.seeds, counterparties);
    var plus, minus := PairHashes(share, counterparties, sid, false), PairHashes(share, counterparties, sid, true);
    forall k | 0 <= k < |c| ensures plus[k] == Add(c[k], minus[k]) {
      Opposite(Fragment(sid, share.seeds[k].seed));
      Identities(c[k]);
    }
    SumAdd(c, minus, plus);
    AddThenSub(Sum(c), Sum(minus));
  }

  // The shares of a set of parties cancel

  /** No counterparty occurs twice. */
  ghost predicate UniqueSeeds(share: ZeroShare) {
    forall k, m :: 0 <= k < m < |share.seeds| ==> share.seeds[k].index_counterparty != share.seeds[m].index_counterparty
  }

  predicate HasSeed(share: ZeroShare, j: PartyIndex) {
    exists k :: 0 <= k < |share.seeds| && share.seeds[k].index_counterparty == j
  }

  ghost function SeedIndex(share: ZeroShare, j: PartyIndex): (k: nat)
    requires HasSeed(share, j)
    ensures k < |share.seeds| && share.seeds[k].index_counterparty == j
  {
    var k :| 0 <= k < |share.seeds| && share.seeds[k].index_counterparty == j;
    k
  }

  /** The seed pair that is held for j. */
  ghost function SeedFor(share: ZeroShare, j: PartyIndex): (pair: SeedPair)
    requires HasSeed(share, j)
    ensures pair.index_counterparty == j && pair in share.seeds
  {
    share.seeds[SeedIndex(share, j)]
  }

  /** Both ends hold the same seed, and exactly one of them takes the negative sign. */
  ghost predicate Mirrored(a: SeedPair, b: SeedPair) {
    a.seed == b.seed && a.lowest_index != b.lowest_index
  }

  /** Every party holds one seed for each other party and none for itself, and the two ends of each pair
      agree on the seed with opposite signs. */
  ghost predicate PairwiseSeeds(shares: map<PartyIndex, ZeroShare>) {
    && (forall i :: i in shares ==> UniqueSeeds(shares[i]))
    && (forall i, j :: i in shares && j in shares ==> (HasSeed(shares[i], j) <==> i != j))
    && (forall i, j {:trigger SeedFor(shares[i], j)} :: i in shares && j in shares && i != j ==>
          Mirrored(SeedFor(shares[i], j), SeedFor(shares[j], i)))
  }

  /** cs lists, in any order, the parties of ps other than ps[a]. */
  ghost predicate OthersOf(ps: seq<PartyIndex>, a: nat, cs: seq<PartyIndex>)
    requires a < |ps|
  {
    forall j :: j in cs <==> j in ps && j != ps[a]
  }

  /** The signed fragment of ps[a] for ps[b]. */
  ghost function Entry(share: ZeroShare, sid: Bytes, j: PartyIndex): Scalar {
    if HasSeed(share, j) then Signed(sid, SeedFor(share, j)) else 0
  }

  ghost function Row(share: ZeroShare, sid: Bytes, ps: seq<PartyIndex>): (r: seq<Scalar>)
    ensures |r| == |ps|
  {
    seq(|ps|, b requires 0 <= b < |ps| => Entry(share, sid, ps[b]))
  }

  function Match(sid: Bytes, pair: SeedPair, j: PartyIndex): Scalar {
    if pair.index_counterparty == j then Signed(sid, pair) else 0
  }

  function MatchRow(sid: Bytes, pair: SeedPair, ps: seq<PartyIndex>): (r: seq<Scalar>)
    ensures |r| == |ps|
  {
    seq(|ps|, b requires 0 <= b < |ps| => Match(sid, pair, ps[b]))
  }

  function MatchColumn(sid: Bytes, seeds: seq<SeedPair>, j: PartyIndex): (r: seq<Scalar>)
    ensures |r| == |seeds|
  {
    seq(|seeds|, k requires 0 <= k < |seeds| => Match(sid, seeds[k], j))
  }

  lemma MatchRowSum(sid: Bytes, pair: SeedPair, ps: seq<PartyIndex>)
    requires NoRepeats(ps)
    ensures Sum(MatchRow(sid, pair, ps)) == if pair.index_counterparty in ps then Signed(sid, pair) else 0
  {
    hide Signed;
    if pair.index_counterparty in ps {
      var b :| 0 <= b < |ps| && ps[b] == pair.index_counterparty;
      OnlyTerm(MatchRow(sid, pair, ps), b);
    } else {
      SumZeros(MatchRow(sid, pair, ps));
    }
  }

  lemma MatchColumnSum(sid: Bytes, share: ZeroShare, j: PartyIndex)
    requires UniqueSeeds(share)
    ensures Sum(MatchColumn(sid, share.seeds, j)) == Entry(share, sid, j)
  {
    hide Signed;
    if HasSeed(share, j) {
      OnlyTerm(MatchColumn(sid, share.seeds, j), SeedIndex(share, j));
    } else {
      SumZeros(MatchColumn(sid, share.seeds, j));
    }
  }

  /** A share is the sum over the participating parties rather than over the seeds. */
  lemma ZetaIsRowSum(share: ZeroShare, ps: seq<PartyIndex>, a: nat, cs: seq<PartyIndex>, sid: Bytes)
    requires UniqueSeeds(share) && NoRepeats(ps) && a < |ps| && OthersOf(ps, a, cs)
    requires !HasSeed(share, ps[a])
    ensures Zeta(share, cs, sid) == Sum(Row(share, sid, ps))
  {
    hide Signed;
    var seeds := share.seeds;
    var m := seq(|seeds|, k requires 0 <= k < |seeds| => MatchRow(sid, seeds[k], ps));
    var t := seq(|ps|, b requires 0 <= b < |ps| => MatchColumn(sid, seeds, ps[b]));
    DoubleSum(m, t, |seeds|, |ps|);
    forall k | 0 <= k < |seeds| ensures RowSums(m)[k] == Contributions(sid, seeds, cs)[k] {
      MatchRowSum(sid, seeds[k], ps);
    }
    assert RowSums(m) == Contributions(sid, seeds, cs);
    forall b | 0 <= b < |ps| ensures RowSums(t)[b] == Row(share, sid, ps)[b] {
      MatchColumnSum(sid, share, ps[b]);
    }
    assert RowSums(t) == Row(share, sid, ps);
  }

  /** The shares of the parties ps, where party ps[a] was given the counterparties cs[a]. */
  ghost function Zetas(shares: map<PartyIndex, ZeroShare>, ps: seq<PartyIndex>, cs: seq<seq<PartyIndex>>, sid: Bytes)
    : (z: seq<Scalar>)
    requires |cs| == |ps| && forall a :: 0 <= a < |ps| ==> ps[a] in shares
    ensures |z| == |ps|
  {
    seq<Scalar>(|ps|, a requires 0 <= a < |ps| => Zeta(shares[ps[a]], cs[a], sid))
  }

  lemma SignsOpposite(sid: Bytes, a: SeedPair, b: SeedPair)
    requires Mirrored(a, b)
    ensures Signed(sid, a) == Neg(Signed(sid, b))
  {
    NegNeg(Fragment(sid, a.seed));
  }

  /** For every set of parties with pairwise seeds, and however each lists its counterparties, the shares
      add up to zero. */
  lemma ZeroSharesCancel(shares: map<PartyIndex, ZeroShare>, ps: seq<PartyIndex>, cs: seq<seq<PartyIndex>>, sid: Bytes)
    requires PairwiseSeeds(shares) && NoRepeats(ps) && |cs| == |ps|
    requires forall a :: 0 <= a < |ps| ==> ps[a] in shares && OthersOf(ps, a, cs[a])
    ensures Sum(Zetas(shares, ps, cs, sid)) == 0
  {
    hide Signed, Zeta, HasSeed;
    var n := |ps|;
    var m := seq(n, a requires 0 <= a < n => Row(shares[ps[a]], sid, ps));
    forall a, b | 0 <= a < n && 0 <= b < n && a != b ensures m[a][b] == Neg(m[b][a]) {
      SignsOpposite(sid, SeedFor(shares[ps[a]], ps[b]), SeedFor(shares[ps[b]], ps[a]));
    }
    Antisymmetric(m, n);
    forall a | 0 <= a < n ensures Zetas(shares, ps, cs, sid)[a] == RowSums(m)[a] {
      ZetaIsRowSum(shares[ps[a]], ps, a, cs[a], sid);
    }
    assert Zetas(shares, ps, cs, sid) == RowSums(m);
  }
}
