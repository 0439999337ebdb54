/** An honest run of distributed key generation: every party ends with a share of the same key. */
module KeyGenerationRuns {
  import opened Outcomes
  import opened PrimeField
  import opened Sums
  import opened Polynomials
  import opened Hashes
  import opened PackedBits
  import opened Curve
  import opened Sequences
  import opened Proofs
  import opened BaseOT
  import opened Transpose
  import opened Multiplication
  import opened Protocols
  import opened MessageRouting
  import opened Shamir
  import opened ZeroShares
  import opened PartyStates
  import opened KeyGenerationSteps
  import opened KeyGeneration
  import opened KeyGenerationFinish

  /** What all parties draw, and the proof of knowledge that each of them makes of its share. */
  datatype DkgRun = DkgRun(
    parameters: ValidParameters, session_id: Bytes, polynomials: PartyIndex -> seq<Scalar>, proofs: PartyIndex -> DLogProof,
    draws: PartyIndex -> DkgDraws, address_fn: Point -> string)

  ghost function Count(run: DkgRun): nat {
    run.parameters.share_count
  }

  // The shared polynomial

  /** The sum of the polynomials of the parties 1 to k. */
  ghost function SumPolynomial(run: DkgRun, k: nat): (p: seq<Scalar>)
    requires k <= 255 && forall i: PartyIndex :: i <= k ==> |run.polynomials(i)| == run.parameters.threshold
    ensures |p| == run.parameters.threshold
  {
    if k == 0 then seq(run.parameters.threshold, _ => 0) else Combine(SumPolynomial(run, k - 1), 1, run.polynomials(k))
  }

  ghost function ValuesAt(run: DkgRun, k: nat, x: Scalar): (v: seq<Scalar>)
    requires k <= 255
    ensures |v| == k
  {
    seq<Scalar>(k, i requires 0 <= i < k => Eval(run.polynomials(i + 1), x))
  }

  lemma {:induction false} EvalSum(run: DkgRun, k: nat, x: Scalar)
    requires k <= 255 && forall i: PartyIndex :: i <= k ==> |run.polynomials(i)| == run.parameters.threshold
    ensures Eval(SumPolynomial(run, k), x) == Sum(ValuesAt(run, k, x))
  {
    if k == 0 {
      EvalZeros(SumPolynomial(run, 0), x);
    } else {
      EvalSum(run, k - 1, x);
      EvalCombine(SumPolynomial(run, k - 1), 1, run.polynomials(k), x);
      Commute(1, Eval(run.polynomials(k), x));
      Identities(Eval(run.polynomials(k), x));
      assert ValuesAt(run, k, x)[..k - 1] == ValuesAt(run, k - 1, x);
    }
  }

  /** The parties 1 to n. */
  ghost function Everybody(n: nat): (s: seq<PartyIndex>)
    requires n <= 255
    ensures |s| == n && NoRepeats(s) && forall j: PartyIndex :: j in s <==> j <= n
  {
    var s := seq<PartyIndex>(n, k requires 0 <= k < n => k + 1);
    assert forall j: PartyIndex :: j in s <==> j <= n by {
      forall j: PartyIndex | j <= n ensures j in s {
        var k: nat := j - 1;
        assert s[k] == j;
      }
    }
    s
  }

  /** order lists the parties 1 to n, each once. */
  ghost predicate ListsEverybody(n: nat, order: seq<PartyIndex>) {
    NoRepeats(order) && forall j: PartyIndex :: j in order <==> j <= n
  }

  /** order lists the parties 1 to n other than i, each once. */
  ghost predicate ListsCounterparties(n: nat, i: PartyIndex, order: seq<PartyIndex>) {
    NoRepeats(order) && forall j: PartyIndex :: j in order <==> j <= n && j != i
  }

  /** The fragments that j receives, from the senders in the given order. */
  ghost function Fragments(run: DkgRun, j: PartyIndex, order: seq<PartyIndex>): (f: seq<Scalar>)
    ensures |f| == |order|
  {
    seq<Scalar>(|order|, k requires 0 <= k < |order| => Eval(run.polynomials(order[k]), j))
  }

  ghost function FragmentFor(run: DkgRun, j: PartyIndex): PartyIndex -> Scalar {
    i => Eval(run.polynomials(i), j)
  }

  ghost predicate HasPolynomials(run: DkgRun) {
    Count(run) <= 254 && forall i: PartyIndex :: i <= Count(run) ==> |run.polynomials(i)| == run.parameters.threshold
  }

  /** p, the sum of all polynomials. */
  ghost function Shared(run: DkgRun): (p: seq<Scalar>)
    requires HasPolynomials(run)
    ensures |p| == run.parameters.threshold
  {
    SumPolynomial(run, Count(run))
  }

  ghost function Share(run: DkgRun, j: PartyIndex): Scalar
    requires HasPolynomials(run)
  {
    Eval(Shared(run), j)
  }

  /** The fragments of a party add up to its value of the shared polynomial, in whatever order they arrive. */
  lemma FragmentsAddUp(run: DkgRun, j: PartyIndex, order: seq<PartyIndex>)
    requires HasPolynomials(run) && ListsEverybody(Count(run), order)
    ensures Sum(Fragments(run, j, order)) == Share(run, j)
  {
    hide Sum, Eval;
    var n := Count(run);
    var f := FragmentFor(run, j);
    SameElements(order, Everybody(n));
    MappedPermuted(f, order, Everybody(n));
    assert Mapped(f, order) == Fragments(run, j, order);
    assert Mapped(f, Everybody(n)) == ValuesAt(run, n, j);
    Permuted(Fragments(run, j, order), ValuesAt(run, n, j));
    EvalSum(run, n, j);
  }

  // The run

  ghost function PublicKey(run: DkgRun): Point
    requires HasPolynomials(run)
  {
    Base(Eval(Shared(run), 0))
  }

  ghost predicate ShareProofsAccepted(run: DkgRun)
    requires HasPolynomials(run)
  {
    forall i: PartyIndex :: i <= Count(run) ==>
      run.proofs(i).point == Base(Share(run, i)) && DLogAccepts(run.proofs(i), run.session_id)
  }

  ghost predicate ProofsAccepted(run: DkgRun)
    requires HasPolynomials(run)
  {
    ShareProofsAccepted(run) && OtProofsAccepted(run)
  }

  ghost predicate OtProofsAccepted(run: DkgRun) {
    forall i: PartyIndex, j: PartyIndex :: i <= Count(run) && j <= Count(run) && i != j ==>
      && run.draws(i).mul(j).dlog_proof.point == Base(run.draws(i).mul(j).s)
      && DLogAccepts(run.draws(i).mul(j).dlog_proof, MulInitSid(i, j, run.session_id))
  }

  /** What the set-up of seeds and multiplications needs of a run. */
  ghost predicate SetUp(run: DkgRun) {
    2 <= Count(run) <= 254 && OtProofsAccepted(run)
  }

  /** At most 254 parties, polynomials of the right length, accepted proofs, no trivial key or share. */
  ghost predicate ValidDkg(run: DkgRun) {
    && HasPolynomials(run) && ProofsAccepted(run)
    && PublicKey(run) != IDENTITY && PublicKey(run) != GENERATOR
    && forall i: PartyIndex :: i <= Count(run) ==> Share(run, i) != 0 && Share(run, i) != 1
  }

  ghost function DataFor(run: DkgRun, i: PartyIndex): SessionData {
    SessionData(run.parameters, i, run.session_id)
  }

  // Step 5

  ghost function Pc(run: DkgRun, i: PartyIndex): ProofCommitment {
    ProofCommitment(i, run.proofs(i), ProofCommitmentHash(run.proofs(i), run.session_id))
  }

  ghost function Pcs(run: DkgRun, order: seq<PartyIndex>): (p: seq<ProofCommitment>)
    ensures |p| == |order|
  {
    seq(|order|, k requires 0 <= k < |order| => Pc(run, order[k]))
  }

  lemma {:induction false} CommittedMeaning(pcs: seq<ProofCommitment>, points: map<PartyIndex, Point>)
    requires forall k, m :: 0 <= k < m < |pcs| ==> pcs[k].index != pcs[m].index
    ensures forall k :: 0 <= k < |pcs| ==> pcs[k].index in Committed(pcs, points) && Committed(pcs, points)[pcs[k].index] == pcs[k].proof.point
    ensures forall j :: j in Committed(pcs, points) ==> (j in points || exists k :: 0 <= k < |pcs| && pcs[k].index == j)
    ensures forall j :: j in points && (forall k :: 0 <= k < |pcs| ==> pcs[k].index != j) ==>
      j in Committed(pcs, points) && Committed(pcs, points)[j] == points[j]
  {
    if pcs != [] {
      var rest := pcs[1..];
      assert forall k :: 0 <= k < |rest| ==> rest[k] == pcs[k + 1];
      var next := points[pcs[0].index := pcs[0].proof.point];
      CommittedMeaning(rest, next);
      assert forall k :: 1 <= k < |pcs| ==> pcs[k] == rest[k - 1];
    }
  }

  /** The verifying share of every party. */
  ghost function SharesInExponent(run: DkgRun): map<PartyIndex, Point>
    requires HasPolynomials(run)
  {
    map j: PartyIndex | j in Everybody(Count(run)) :: Base(Share(run, j))
  }

  lemma CommittedPoint(run: DkgRun, order: seq<PartyIndex>, j: PartyIndex)
    requires HasPolynomials(run) && ShareProofsAccepted(run) && ListsEverybody(Count(run), order)
    ensures var c := Committed(Pcs(run, order), map[]);
      (j in c <==> j <= Count(run)) && (j in c ==> c[j] == Base(Share(run, j)))
  {
    hide DLogAccepts, Share, Committed;
    var pcs := Pcs(run, order);
    CommittedMeaning(pcs, map[]);
    if j in order {
      var k :| 0 <= k < |order| && order[k] == j;
      assert pcs[k].index == j;
    }
    if j in Committed(pcs, map[]) {
      var k :| 0 <= k < |pcs| && pcs[k].index == j;
      assert order[k] in order;
    }
  }

  lemma CommittedShares(run: DkgRun, order: seq<PartyIndex>)
    requires HasPolynomials(run) && ShareProofsAccepted(run) && ListsEverybody(Count(run), order)
    ensures Committed(Pcs(run, order), map[]) == SharesInExponent(run)
  {
    hide ShareProofsAccepted, Share, Committed, Pcs, ListsEverybody;
    var c := Committed(Pcs(run, order), map[]);
    forall j: PartyIndex
      ensures j in c <==> j in SharesInExponent(run)
      ensures j in c ==> c[j] == SharesInExponent(run)[j]
    {
      CommittedPoint(run, order, j);
    }
  }

  lemma PcsAccepted(run: DkgRun, i: PartyIndex, order: seq<PartyIndex>)
    requires HasPolynomials(run) && ShareProofsAccepted(run) && ListsEverybody(Count(run), order)
    ensures forall k :: 0 <= k < |order| ==> ProofAccepted(i, run.session_id, Pcs(run, order)[k])
  {
    hide DLogAccepts, Share, ProofCommitmentHash, NoRepeats;
    forall k | 0 <= k < |order| ensures ProofAccepted(i, run.session_id, Pcs(run, order)[k]) {
      assert order[k] in order;
    }
  }

  lemma SharesInterpolated(run: DkgRun)
    requires HasPolynomials(run)
    ensures Interpolated(SharesInExponent(run), Count(run), Shared(run))
  {
    hide Eval;
  }

  lemma Step5Honest(run: DkgRun, i: PartyIndex, order: seq<PartyIndex>)
    requires HasPolynomials(run) && ShareProofsAccepted(run) && i <= Count(run) && ListsEverybody(Count(run), order)
    ensures Step5Outcome(run.parameters, i, run.session_id, Pcs(run, order)) == Ok((PublicKey(run), SharesInExponent(run)))
  {
    hide Step5Outcome, Eval, Committed, Pcs, SharesInExponent, ProofAccepted, ShareProofsAccepted, Interpolated, ListsEverybody;
    CommittedShares(run, order);
    AcceptedProofs(i, run.session_id, Pcs(run, order));
    Step5Decides(run.parameters, i, run.session_id, Pcs(run, order));
    PcsAccepted(run, i, order);
    SharesInterpolated(run);
  }

  // Zero shares

  ghost function Zero2(run: DkgRun, i: PartyIndex, order: seq<PartyIndex>): (m: seq<Transmit<HashOutput>>)
    ensures |m| == |order|
  {
    seq(|order|, k requires 0 <= k < |order| => ZeroMessage2(run.draws(order[k]), order[k], i))
  }

  ghost function Zero3(run: DkgRun, i: PartyIndex, order: seq<PartyIndex>): (m: seq<Transmit<ZeroBody3>>)
    ensures |m| == |order|
  {
    seq(|order|, k requires 0 <= k < |order| =>
      Transmit(PartiesMessage(order[k], i), ZeroBody3(run.draws(order[k]).seeds(i), run.draws(order[k]).salts(i))))
  }

  /** The seeds that i has kept. */
  ghost function KeptSeeds(run: DkgRun, i: PartyIndex): map<PartyIndex, HashOutput>
    requires Count(run) <= 255
  {
    SeedsOf(ZeroKeep2(run.draws(i), Others(Count(run), i)))
  }

  ghost function AgreedSeed(run: DkgRun, i: PartyIndex, j: PartyIndex): SeedPair {
    SeedPairOf(i, j, run.draws(i).seeds(j), run.draws(j).seeds(i))
  }

  /** The seed pairs of i with the parties from j on. */
  ghost function AgreedSeeds(run: DkgRun, i: PartyIndex, j: nat): seq<SeedPair>
    requires j >= 1
    decreases 256 - j
  {
    if j > 255 then []
    else if j > Count(run) || j == i then AgreedSeeds(run, i, j + 1)
    else [AgreedSeed(run, i, j)] + AgreedSeeds(run, i, j + 1)
  }

  ghost predicate Opened(run: DkgRun, i: PartyIndex, two: Commitments, three: Openings)
    requires Count(run) <= 255
  {
    && two.Keys == three.Keys == KeptSeeds(run, i).Keys
    && forall j :: j in two ==>
         && two[j] == Commitment(run.draws(j).seeds(i), run.draws(j).salts(i))
         && three[j] == ZeroBody3(run.draws(j).seeds(i), run.draws(j).salts(i))
  }

  lemma KeptSeed(run: DkgRun, i: PartyIndex, j: PartyIndex)
    requires Count(run) <= 255
    ensures j in KeptSeeds(run, i) <==> j <= Count(run) && j != i
    ensures j in KeptSeeds(run, i) ==> KeptSeeds(run, i)[j] == run.draws(i).seeds(j)
  {}

  lemma ZeroSeedHonest(run: DkgRun, i: PartyIndex, two: Commitments, three: Openings, j: PartyIndex)
    requires Count(run) <= 255 && Opened(run, i, two, three) && j in KeptSeeds(run, i)
    ensures ZeroSeed(i, KeptSeeds(run, i)[j], two, three, j) == Ok(AgreedSeed(run, i, j))
  {
    hide Commitment, SeedPairOf, KeptSeeds;
    KeptSeed(run, i, j);
  }

  lemma {:induction false} ZeroLoopHonest(run: DkgRun, i: PartyIndex, two: Commitments, three: Openings, j: nat,
                                          seeds: seq<SeedPair>)
    requires Count(run) <= 255 && j >= 1 && Opened(run, i, two, three)
    ensures ZeroLoop(i, KeptSeeds(run, i), two, three, j, seeds) == Ok(seeds + AgreedSeeds(run, i, j))
    decreases 256 - j
  {
    hide Opened, KeptSeeds, ZeroSeed, AgreedSeed;
    if j > 255 {
      assert seeds + [] == seeds;
    } else {
      KeptSeed(run, i, j);
      if j in KeptSeeds(run, i) {
        ZeroSeedHonest(run, i, two, three, j);
        ZeroLoopHonest(run, i, two, three, j + 1, seeds + [AgreedSeed(run, i, j)]);
        assert seeds + [AgreedSeed(run, i, j)] + AgreedSeeds(run, i, j + 1) == seeds + AgreedSeeds(run, i, j);
      } else {
        ZeroLoopHonest(run, i, two, three, j + 1, seeds);
      }
    }
  }

  lemma OthersKeys(run: DkgRun, i: PartyIndex, order: seq<PartyIndex>)
    requires Count(run) <= 255 && ListsCounterparties(Count(run), i, order)
    ensures KeptSeeds(run, i).Keys == Elements(order) && |KeptSeeds(run, i)| == |order|
    ensures MulKeep(run.draws(i), Others(Count(run), i)).Keys == Elements(order)
    ensures |MulKeep(run.draws(i), Others(Count(run), i))| == |order|
  {
    hide MulKeepFor;
    ElementCount(order);
    assert KeptSeeds(run, i).Keys == Elements(order);
    assert |KeptSeeds(run, i)| == |KeptSeeds(run, i).Keys|;
    var kept := MulKeep(run.draws(i), Others(Count(run), i));
    assert |kept| == |kept.Keys|;
  }

  /** Messages from the senders in order, with the body that f gives for each, are collected completely. */
  lemma CollectHonest<T>(i: PartyIndex, expected: set<PartyIndex>, order: seq<PartyIndex>, received: seq<Transmit<T>>,
                         f: PartyIndex -> T)
    requires |received| == |order| && NoRepeats(order) && expected == Elements(order)
    requires forall k :: 0 <= k < |order| ==> received[k] == Transmit(PartiesMessage(order[k], i), f(order[k]))
    ensures var r := Collected(i, expected, received, map[]);
      && r.Ok? && r.value.Keys == expected && |r.value| == |order|
      && forall j :: j in r.value ==> r.value[j] == f(j)
  {
    CollectedMeaning(i, expected, received, map[]);
    forall k | 0 <= k < |order| ensures order[k] in expected {
      assert order[k] in order;
    }
    assert WellPlaced(i, expected, received, {});
    var r := Collected(i, expected, received, map[]);
    forall c | c in expected ensures c in Senders(received) {
      var k :| 0 <= k < |order| && order[k] == c;
      assert received[k].parties.sender == c;
    }
    forall j | j in r.value ensures r.value[j] == f(j) {
      var k :| 0 <= k < |received| && received[k].parties.sender == j;
    }
    ElementCount(order);
    assert r.value.Keys == expected;
    assert |r.value| == |r.value.Keys|;
  }

  ghost function CommitmentTo(run: DkgRun, i: PartyIndex): PartyIndex -> HashOutput {
    (j: PartyIndex) => Commitment(run.draws(j).seeds(i), run.draws(j).salts(i))
  }

  ghost function OpeningTo(run: DkgRun, i: PartyIndex): PartyIndex -> ZeroBody3 {
    (j: PartyIndex) => ZeroBody3(run.draws(j).seeds(i), run.draws(j).salts(i))
  }

  ghost function MulBodyTo(run: DkgRun, i: PartyIndex): PartyIndex -> MulBody {
    (j: PartyIndex) => MulMessage(run.draws(j).mul(i), j, i, run.session_id).body
  }

  lemma Zero2Is(run: DkgRun, i: PartyIndex, order: seq<PartyIndex>)
    ensures forall k :: 0 <= k < |order| ==> Zero2(run, i, order)[k] == Transmit(PartiesMessage(order[k], i), CommitmentTo(run, i)(order[k]))
  {
    hide Commitment;
  }

  lemma Zero3Is(run: DkgRun, i: PartyIndex, order: seq<PartyIndex>)
    ensures forall k :: 0 <= k < |order| ==> Zero3(run, i, order)[k] == Transmit(PartiesMessage(order[k], i), OpeningTo(run, i)(order[k]))
  {}

  lemma MulInIs(run: DkgRun, i: PartyIndex, order: seq<PartyIndex>)
    ensures forall k :: 0 <= k < |order| ==> MulIn(run, i, order)[k] == Transmit(PartiesMessage(order[k], i), MulBodyTo(run, i)(order[k]))
  {
    hide MulMessage;
    forall k | 0 <= k < |order| ensures MulIn(run, i, order)[k] == Transmit(PartiesMessage(order[k], i), MulBodyTo(run, i)(order[k])) {
      MulMessageParties(run, order[k], i);
    }
  }

  lemma OpenedHonest(run: DkgRun, i: PartyIndex, order2: seq<PartyIndex>, order3: seq<PartyIndex>)
    requires Count(run) <= 255 && ListsCounterparties(Count(run), i, order2) && ListsCounterparties(Count(run), i, order3)
    ensures var keys := KeptSeeds(run, i).Keys;
      var two := Collected(i, keys, Zero2(run, i, order2), map[]);
      var three := Collected(i, keys, Zero3(run, i, order3), map[]);
      && two.Ok? && three.Ok? && |two.value| == |three.value| == |KeptSeeds(run, i)|
      && Opened(run, i, two.value, three.value)
  {
    hide Commitment, KeptSeeds, Collected, NoRepeats, Zero2, Zero3, Elements;
    var keys := KeptSeeds(run, i).Keys;
    OthersKeys(run, i, order2);
    OthersKeys(run, i, order3);
    Zero2Is(run, i, order2);
    Zero3Is(run, i, order3);
    CollectHonest(i, keys, order2, Zero2(run, i, order2), CommitmentTo(run, i));
    CollectHonest(i, keys, order3, Zero3(run, i, order3), OpeningTo(run, i));
  }

  lemma ZeroHonest(run: DkgRun, i: PartyIndex, order2: seq<PartyIndex>, order3: seq<PartyIndex>)
    requires Count(run) <= 255 && ListsCounterparties(Count(run), i, order2) && ListsCounterparties(Count(run), i, order3)
    ensures ZeroOutcome(i, KeptSeeds(run, i), Zero2(run, i, order2), Zero3(run, i, order3)) == Ok(ZeroShare(AgreedSeeds(run, i, 1)))
  {
    hide Opened, KeptSeeds, ZeroLoop, Collected, Zero2, Zero3, AgreedSeeds;
    var kept := KeptSeeds(run, i);
    OpenedHonest(run, i, order2, order3);
    var two := Collected(i, kept.Keys, Zero2(run, i, order2), map[]).value;
    var three := Collected(i, kept.Keys, Zero3(run, i, order3), map[]).value;
    ZeroLoopHonest(run, i, two, three, 1, []);
    assert [] + AgreedSeeds(run, i, 1) == AgreedSeeds(run, i, 1);
  }

  lemma {:induction false} AgreedSeedsMeaning(run: DkgRun, i: PartyIndex, j: nat)
    requires 1 <= j && Count(run) <= 255
    ensures var s := AgreedSeeds(run, i, j);
      && (forall k :: 0 <= k < |s| ==> j <= s[k].index_counterparty && s[k] == AgreedSeed(run, i, s[k].index_counterparty))
      && UniqueSeeds(ZeroShare(s))
      && (forall c: PartyIndex :: HasSeed(ZeroShare(s), c) <==> j <= c <= Count(run) && c != i)
    decreases 256 - j
  {
    hide SeedPairOf;
    if j <= 255 {
      AgreedSeedsMeaning(run, i, j + 1);
      var s, rest := AgreedSeeds(run, i, j), AgreedSeeds(run, i, j + 1);
      if j <= Count(run) && j != i {
        SeedIndexOf(run, i, j);
        assert forall k :: 0 < k < |s| ==> s[k] == rest[k - 1];
        forall c: PartyIndex ensures HasSeed(ZeroShare(s), c) <==> j <= c <= Count(run) && c != i {
          if c == j {
            assert s[0].index_counterparty == c;
          } else if HasSeed(ZeroShare(rest), c) {
            var k :| 0 <= k < |rest| && rest[k].index_counterparty == c;
            assert s[k + 1].index_counterparty == c;
          }
        }
      }
    }
  }

  lemma SeedIndexOf(run: DkgRun, i: PartyIndex, j: PartyIndex)
    ensures AgreedSeed(run, i, j).index_counterparty == j
  {}

  lemma SeedsMirrored(run: DkgRun, i: PartyIndex, j: PartyIndex)
    requires i != j
    ensures Mirrored(AgreedSeed(run, i, j), AgreedSeed(run, j, i))
  {
    XorSelf(run.draws(i).seeds(j), run.draws(j).seeds(i));
  }

  // Multiplication

  ghost function MulIn(run: DkgRun, i: PartyIndex, order: seq<PartyIndex>): (m: seq<Transmit<MulBody>>)
    ensures |m| == |order|
  {
    seq(|order|, k requires 0 <= k < |order| => MulMessage(run.draws(order[k]).mul(i), order[k], i, run.session_id))
  }

  /** The two ends of the pair with receiver i and sender j. */
  ghost function PairEnds(run: DkgRun, i: PartyIndex, j: PartyIndex): (MulReceiver, MulSender)
    requires SetUp(run) && i <= Count(run) && j <= Count(run) && i != j
  {
    var r, s := run.draws(i).mul(j), run.draws(j).mul(i);
    var sid := MulInitSid(i, j, run.session_id);
    PairEndsExist(run, i, j);
    (MulReceiverOf(r.s, sid, s.ot_seed, ReceiverProofs(s.ot_seed, sid, s.correlation, s.proofs), r.nonce).value,
     MulSenderOf(sid, s.correlation, Nonces(s.proofs), r.dlog_proof, r.nonce).value)
  }

  lemma PairEndsExist(run: DkgRun, i: PartyIndex, j: PartyIndex)
    requires SetUp(run) && i <= Count(run) && j <= Count(run) && i != j
    ensures var r, s := run.draws(i).mul(j), run.draws(j).mul(i);
      var sid := MulInitSid(i, j, run.session_id);
      var receiver := MulReceiverOf(r.s, sid, s.ot_seed, ReceiverProofs(s.ot_seed, sid, s.correlation, s.proofs), r.nonce);
      var sender := MulSenderOf(sid, s.correlation, Nonces(s.proofs), r.dlog_proof, r.nonce);
      receiver.Ok? && sender.Ok? && Paired(sender.value, receiver.value)
  {
    hide DLogAccepts, MulReceiverOf, MulSenderOf, Paired, Share, MulInitSid;
    var r, s := run.draws(i).mul(j), run.draws(j).mul(i);
    InitPaired(r.s, MulInitSid(i, j, run.session_id), s.ot_seed, s.correlation, s.proofs, r.dlog_proof, r.nonce);
  }

  ghost predicate MulArrived(run: DkgRun, i: PartyIndex, received: map<PartyIndex, MulBody>)
    requires Count(run) <= 255
  {
    && (forall j: PartyIndex :: j in received <==> j <= Count(run) && j != i)
    && forall j :: j in received ==> received[j] == MulMessage(run.draws(j).mul(i), j, i, run.session_id).body
  }

  lemma EndsHonest(run: DkgRun, i: PartyIndex, j: PartyIndex)
    requires SetUp(run) && i <= Count(run) && j <= Count(run) && i != j
    ensures MulEnds(DataFor(run, i), MulKeepFor(run.draws(i).mul(j)), MulMessage(run.draws(j).mul(i), j, i, run.session_id).body, j)
            == Ok((PairEnds(run, i, j).0, PairEnds(run, j, i).1))
  {
    hide SetUp, MulReceiverOf, MulSenderOf, MulInitSid;
    PairEndsExist(run, i, j);
    PairEndsExist(run, j, i);
  }

  ghost function ReceiversBelow(run: DkgRun, i: PartyIndex, j: nat): Receivers
    requires SetUp(run) && i <= Count(run)
  {
    map c: PartyIndex | c in Everybody(Count(run)) && c != i && c < j :: PairEnds(run, i, c).0
  }

  ghost function SendersBelow(run: DkgRun, i: PartyIndex, j: nat): MulSenders
    requires SetUp(run) && i <= Count(run)
  {
    map c: PartyIndex | c in Everybody(Count(run)) && c != i && c < j :: PairEnds(run, c, i).1
  }

  lemma BelowStep(run: DkgRun, i: PartyIndex, j: PartyIndex)
    requires SetUp(run) && i <= Count(run)
    ensures if j <= Count(run) && j != i then
        && ReceiversBelow(run, i, j + 1) == ReceiversBelow(run, i, j)[j := PairEnds(run, i, j).0]
        && SendersBelow(run, i, j + 1) == SendersBelow(run, i, j)[j := PairEnds(run, j, i).1]
      else
        ReceiversBelow(run, i, j + 1) == ReceiversBelow(run, i, j) && SendersBelow(run, i, j + 1) == SendersBelow(run, i, j)
  {
    hide SetUp, PairEnds;
    CountBound(run);
  }

  lemma KeptMul(run: DkgRun, i: PartyIndex, j: PartyIndex)
    requires Count(run) <= 255
    ensures var kept := MulKeep(run.draws(i), Others(Count(run), i));
      (j in kept <==> j <= Count(run) && j != i) && (j in kept ==> kept[j] == MulKeepFor(run.draws(i).mul(j)))
  {
    hide MulKeepFor;
  }

  lemma {:induction false} MulLoopHonest(run: DkgRun, i: PartyIndex, received: map<PartyIndex, MulBody>, j: nat)
    requires SetUp(run) && i <= Count(run) && 1 <= j <= 256 && MulArrived(run, i, received)
    ensures MulLoop(DataFor(run, i), MulKeep(run.draws(i), Others(Count(run), i)), received, j, ReceiversBelow(run, i, j), SendersBelow(run, i, j))
            == Ok((ReceiversBelow(run, i, 256), SendersBelow(run, i, 256)))
    decreases 256 - j
  {
    hide SetUp, MulEnds, MulMessage, MulKeepFor, PairEnds, MulKeep, Others, ReceiversBelow, SendersBelow;
    if j <= 255 {
      MulLoopHonest(run, i, received, j + 1);
      BelowStep(run, i, j);
      CountBound(run);
      KeptMul(run, i, j);
      if j <= Count(run) && j != i {
        EndsHonest(run, i, j);
      }
    }
  }

  lemma MulArrivedHonest(run: DkgRun, i: PartyIndex, order: seq<PartyIndex>)
    requires SetUp(run) && i <= Count(run) && ListsCounterparties(Count(run), i, order)
    ensures var kept := MulKeep(run.draws(i), Others(Count(run), i));
      var by_sender := Collected(i, kept.Keys, MulIn(run, i, order), map[]);
      by_sender.Ok? && |by_sender.value| == |kept| && MulArrived(run, i, by_sender.value)
  {
    hide SetUp, MulMessage, MulKeep, Collected, Others, NoRepeats, MulIn, Elements, MulArrived, MulBodyTo;
    var kept := MulKeep(run.draws(i), Others(Count(run), i));
    CountBound(run);
    OthersKeys(run, i, order);
    MulInIs(run, i, order);
    CollectHonest(i, kept.Keys, order, MulIn(run, i, order), MulBodyTo(run, i));
    forall j: PartyIndex ensures j in kept <==> j <= Count(run) && j != i {
      KeptMul(run, i, j);
    }
    BodiesArrived(run, i, Collected(i, kept.Keys, MulIn(run, i, order), map[]).value);
  }

  lemma BodiesArrived(run: DkgRun, i: PartyIndex, received: map<PartyIndex, MulBody>)
    requires Count(run) <= 255 && forall j: PartyIndex :: j in received <==> j <= Count(run) && j != i
    requires forall j :: j in received ==> received[j] == MulBodyTo(run, i)(j)
    ensures MulArrived(run, i, received)
  {
    hide MulMessage;
  }

  lemma MulHonest(run: DkgRun, i: PartyIndex, order: seq<PartyIndex>)
    requires SetUp(run) && i <= Count(run) && ListsCounterparties(Count(run), i, order)
    ensures MulOutcome(DataFor(run, i), MulKeep(run.draws(i), Others(Count(run), i)), MulIn(run, i, order))
            == Ok((ReceiversBelow(run, i, 256), SendersBelow(run, i, 256)))
  {
    var kept := MulKeep(run.draws(i), Others(Count(run), i));
    var received := MulIn(run, i, order);
    assert ReceiversBelow(run, i, 1) == map[] && SendersBelow(run, i, 1) == map[] by {
      hide SetUp, PairEnds;
      CountBound(run);
    }
    hide SetUp, MulLoop, MulKeep, Others, Collected, MulArrived, ReceiversBelow, SendersBelow, MulIn;
    MulArrivedHonest(run, i, order);
    MulLoopHonest(run, i, Collected(i, kept.Keys, received, map[]).value, 1);
  }

  lemma CountBound(run: DkgRun)
    requires SetUp(run)
    ensures 2 <= Count(run) <= 254
  {
    hide OtProofsAccepted;
  }

  lemma MulMessageParties(run: DkgRun, i: PartyIndex, j: PartyIndex)
    ensures MulMessage(run.draws(i).mul(j), i, j, run.session_id).parties == PartiesMessage(i, j)
  {}

  // The chain code

  ghost function ChainCommitments(run: DkgRun): Commitments
    requires Count(run) <= 255
  {
    map j: PartyIndex | j in Everybody(Count(run)) :: Commitment(run.draws(j).aux_chain_code, run.draws(j).cc_salt)
  }

  ghost function ChainOpenings(run: DkgRun): map<PartyIndex, ChainBody3>
    requires Count(run) <= 255
  {
    map j: PartyIndex | j in Everybody(Count(run)) :: ChainBody3(run.draws(j).aux_chain_code, run.draws(j).cc_salt)
  }

  /** The XOR of the auxiliary chain codes of the parties from i on. */
  ghost function XorFrom(run: DkgRun, i: nat, chain_code: ChainCode): ChainCode
    requires i >= 1 && Count(run) <= 255
    decreases Count(run) + 1 - i
  {
    if i > Count(run) then chain_code else XorFrom(run, i + 1, XorBytes(chain_code, run.draws(i).aux_chain_code))
  }

  /** The XOR of all auxiliary chain codes. */
  ghost function CommonChainCode(run: DkgRun): ChainCode
    requires Count(run) <= 255
  {
    XorFrom(run, 1, ZeroChain())
  }

  lemma {:induction false} ChainHonest(run: DkgRun, me: PartyIndex, i: nat, chain_code: ChainCode)
    requires i >= 1 && Count(run) <= 255
    ensures ChainLoop(me, Count(run), ChainCommitments(run), ChainOpenings(run), i, chain_code) == Ok(XorFrom(run, i, chain_code))
    decreases Count(run) + 1 - i
  {
    hide Commitment, XorBytes;
    if i <= Count(run) {
      ChainHonest(run, me, i + 1, XorBytes(chain_code, run.draws(i).aux_chain_code));
    }
  }

  // The outcome

  ghost function Inputs(run: DkgRun, i: PartyIndex, all: seq<PartyIndex>, order2: seq<PartyIndex>, order3: seq<PartyIndex>,
                        order_mul: seq<PartyIndex>): Inputs4
    requires Count(run) <= 255
  {
    Inputs4(Pcs(run, all), Zero2(run, i, order2), Zero3(run, i, order3), MulIn(run, i, order_mul), ChainCommitments(run), ChainOpenings(run))
  }

  lemma ValidIsSetUp(run: DkgRun)
    requires ValidDkg(run)
    ensures SetUp(run)
  {
    hide Share, OtProofsAccepted;
  }

  ghost function FinalParty(run: DkgRun, i: PartyIndex): Party
    requires ValidDkg(run) && i <= Count(run)
  {
    ValidIsSetUp(run);
    NewParty(DataFor(run, i), Share(run, i), PublicKey(run), ZeroShare(AgreedSeeds(run, i, 1)), ReceiversBelow(run, i, 256),
             SendersBelow(run, i, 256), CommonChainCode(run), run.address_fn(PublicKey(run)))
  }

  ghost function FinalPackage(run: DkgRun): PublicKeyPackage
    requires ValidDkg(run)
  {
    PublicKeyPackage(PublicKey(run), SharesInExponent(run), run.parameters)
  }

  /** Phase 4 succeeds for every party and every order of messages, with the same public package for all. */
  lemma Phase4Honest(run: DkgRun, i: PartyIndex, all: seq<PartyIndex>, order2: seq<PartyIndex>, order3: seq<PartyIndex>,
                     order_mul: seq<PartyIndex>)
    requires ValidDkg(run) && i <= Count(run) && ListsEverybody(Count(run), all)
    requires ListsCounterparties(Count(run), i, order2) && ListsCounterparties(Count(run), i, order3) && ListsCounterparties(Count(run), i, order_mul)
    ensures Phase4Outcome(DataFor(run, i), Share(run, i), KeptSeeds(run, i), MulKeep(run.draws(i), Others(Count(run), i)),
                          Inputs(run, i, all, order2, order3, order_mul), run.address_fn)
            == Ok((FinalParty(run, i), FinalPackage(run)))
  {
    hide ShareProofsAccepted, OtProofsAccepted, Share, Step5Outcome, ZeroOutcome, MulOutcome, ChainLoop, KeptSeeds, MulKeep,
         Others, Pcs, Zero2, Zero3, MulIn, ChainCommitments, ChainOpenings, ListsCounterparties, ListsEverybody, PublicKey,
         ReceiversBelow, SendersBelow, AgreedSeeds;
    ValidIsSetUp(run);
    Step5Honest(run, i, all);
    ZeroHonest(run, i, order2, order3);
    MulHonest(run, i, order_mul);
    ChainHonest(run, i, 1, ZeroChain());
  }

  ghost function FinalParties(run: DkgRun): Parties
    requires ValidDkg(run)
  {
    map i: PartyIndex | i in Everybody(Count(run)) :: FinalParty(run, i)
  }

  lemma FinalPublicData(run: DkgRun)
    requires ValidDkg(run)
    ensures Complete(FinalParties(run), Count(run))
    ensures SamePublicData(FinalParties(run), run.parameters, PublicKey(run), run.session_id, CommonChainCode(run))
    ensures SharesOf(FinalParties(run), Shared(run))
  {
    hide OtProofsAccepted, Eval, ReceiversBelow, SendersBelow, AgreedSeeds, CommonChainCode;
  }

  lemma FinalFields(run: DkgRun, i: PartyIndex)
    requires ValidDkg(run) && i <= Count(run)
    ensures SetUp(run) && FinalParty(run, i).zero_share == ZeroShare(AgreedSeeds(run, i, 1))
    ensures FinalParty(run, i).mul_receivers == ReceiversBelow(run, i, 256) && FinalParty(run, i).mul_senders == SendersBelow(run, i, 256)
  {
    ValidIsSetUp(run);
    hide ValidDkg, SetUp, Share, PublicKey, AgreedSeeds, ReceiversBelow, SendersBelow, CommonChainCode;
  }

  lemma FinalSetUp(run: DkgRun)
    requires ValidDkg(run)
    ensures SetUp(run) && HasAgreedSeeds(run, FinalParties(run)) && HasPairEnds(run, FinalParties(run))
  {
    ValidIsSetUp(run);
    hide ProofsAccepted, OtProofsAccepted, Share, PublicKey, AgreedSeeds, ReceiversBelow, SendersBelow, FinalParty;
    forall i: PartyIndex | i <= Count(run)
      ensures FinalParty(run, i).zero_share == ZeroShare(AgreedSeeds(run, i, 1))
      ensures FinalParty(run, i).mul_receivers == ReceiversBelow(run, i, 256) && FinalParty(run, i).mul_senders == SendersBelow(run, i, 256)
    {
      FinalFields(run, i);
    }
  }

  /** Every party holds the seeds that the run agreed on. */
  ghost predicate HasAgreedSeeds(run: DkgRun, ps: Parties)
    requires Count(run) <= 255
  {
    Complete(ps, Count(run)) && forall i :: i in ps ==> ps[i].zero_share == ZeroShare(AgreedSeeds(run, i, 1))
  }

  lemma AgreedPairwise(run: DkgRun, ps: Parties)
    requires Count(run) <= 255 && HasAgreedSeeds(run, ps)
    ensures PairwiseSeeds(ZeroSharesOf(ps))
  {
    hide AgreedSeeds, HasSeed, SeedFor, UniqueSeeds, AgreedSeed;
    var shares := ZeroSharesOf(ps);
    var n := Count(run);
    forall i | i in shares
      ensures i <= n && shares[i] == ZeroShare(AgreedSeeds(run, i, 1)) && UniqueSeeds(shares[i])
      ensures forall j: PartyIndex :: j <= n ==> (HasSeed(shares[i], j) <==> i != j)
      ensures forall j: PartyIndex :: j <= n && i != j ==> SeedFor(shares[i], j) == AgreedSeed(run, i, j)
    {
      SeedsOfParty(run, i);
    }
    forall i, j {:trigger SeedFor(shares[i], j)} | i in shares && j in shares && i != j
      ensures Mirrored(SeedFor(shares[i], j), SeedFor(shares[j], i))
    {
      SeedsMirrored(run, i, j);
    }
  }

  lemma SeedsOfParty(run: DkgRun, i: PartyIndex)
    requires Count(run) <= 255
    ensures var share := ZeroShare(AgreedSeeds(run, i, 1));
      && UniqueSeeds(share)
      && (forall j: PartyIndex :: j <= Count(run) ==> (HasSeed(share, j) <==> i != j))
      && (forall j: PartyIndex :: j <= Count(run) && i != j ==> SeedFor(share, j) == AgreedSeed(run, i, j))
  {
    hide AgreedSeeds, AgreedSeed;
    AgreedSeedsMeaning(run, i, 1);
  }

  /** Every party holds the ends of multiplication that the run set up. */
  ghost predicate HasPairEnds(run: DkgRun, ps: Parties)
    requires SetUp(run)
  {
    Complete(ps, Count(run)) &&
    forall i :: i in ps ==> ps[i].mul_receivers == ReceiversBelow(run, i, 256) && ps[i].mul_senders == SendersBelow(run, i, 256)
  }

  lemma EndsAllPaired(run: DkgRun, ps: Parties)
    requires SetUp(run) && HasPairEnds(run, ps)
    ensures AllPaired(ps)
  {
    hide OtProofsAccepted, PairEnds, Paired;
    forall i: PartyIndex, j: PartyIndex | i in ps && j in ps && i != j
      ensures j in ps[i].mul_senders && i in ps[j].mul_receivers && Paired(ps[i].mul_senders[j], ps[j].mul_receivers[i])
    {
      EndsPaired(run, j, i);
    }
  }

  lemma EndsPaired(run: DkgRun, i: PartyIndex, j: PartyIndex)
    requires SetUp(run) && i <= Count(run) && j <= Count(run) && i != j
    ensures Paired(PairEnds(run, i, j).1, PairEnds(run, i, j).0)
  {
    hide SetUp, MulReceiverOf, MulSenderOf, MulInitSid, Paired;
    PairEndsExist(run, i, j);
  }

  /** The parties that key generation leaves are consistent: they hold a sharing of p(0), where p is the sum of
      all polynomials, with public key p(0)G, one XOR chain code, mirrored seeds and paired multiplications. */
  lemma KeyGenerationConsistent(run: DkgRun)
    requires ValidDkg(run)
    ensures ConsistentParties(FinalParties(run), run.parameters, Shared(run), run.session_id, CommonChainCode(run))
    ensures forall i: PartyIndex :: i <= Count(run) ==>
      i in FinalPackage(run).verifying_shares && FinalPackage(run).verifying_shares[i] == Base(Share(run, i))
  {
    hide ProofsAccepted, Share, PairwiseSeeds, AllPaired, SamePublicData, SharesOf, FinalParties, CommonChainCode, SetUp,
         HasAgreedSeeds, HasPairEnds;
    ValidIsSetUp(run);
    FinalPublicData(run);
    FinalSetUp(run);
    AgreedPairwise(run, FinalParties(run));
    EndsAllPaired(run, FinalParties(run));
  }
}
