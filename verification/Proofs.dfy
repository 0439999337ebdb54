/** Zero-knowledge proofs: Schnorr with the randomised Fischlin transform, Chaum-Pedersen, and the
    OR-composition used by the base OT. Random choices are parameters. */
module Proofs {
  import opened Sequences
  import opened Bits
  import opened Outcomes
  import opened PrimeField
  import opened Hashes
  import opened Curve
  import opened OracleTags

  // Constants of the randomised Fischlin transform
  const R: nat := 64
  const T_BYTES: nat := 4
  const MAX_TRIES: nat := 65535

  // Schnorr's protocol

  type Challenge = c: Bytes | |c| == T_BYTES witness seq(T_BYTES, _ => 0)

  datatype InteractiveDLogProof = InteractiveDLogProof(challenge: Bytes, response: Scalar)

  /** A short challenge extended with leading zeros to 32 bytes and reduced. */
  function ChallengeScalar(challenge: Bytes): Scalar
    requires |challenge| <= SECURITY
  {
    ReduceHash(seq(SECURITY - |challenge|, _ => 0) + challenge)
  }

  function ProveStep2(scalar: Scalar, commitment: Scalar, challenge: Challenge): InteractiveDLogProof {
    InteractiveDLogProof(challenge, Sub(commitment, Mul(ChallengeScalar(challenge), scalar)))
  }

  predicate SchnorrAccepts(proof: InteractiveDLogProof, point: Point, commitment: Point) {
    && 0 < |proof.challenge| <= T_BYTES
    && Plus(Base(proof.response), Times(point, ChallengeScalar(proof.challenge))) == commitment
  }

  lemma SchnorrComplete(scalar: Scalar, commitment: Scalar, challenge: Challenge)
    ensures SchnorrAccepts(ProveStep2(scalar, commitment, challenge), Base(scalar), Base(commitment))
  {
    Cancel(commitment, ChallengeScalar(challenge), scalar);
  }

  lemma Cancel(k: Scalar, c: Scalar, x: Scalar)
    ensures Add(Sub(k, Mul(c, x)), Mul(x, c)) == k
  {
    var k': int, c': int, x': int := k, c, x;
    OfScalar(k); OfScalar(c); OfScalar(x);
    OfMul(c', x'); OfNeg((c' * x')); OfAdd(k', (-(c' * x'))); OfMul(x', c');
    OfAdd((k' + (-(c' * x'))), (x' * c'));
    assert (k' + (-(c' * x'))) + (x' * c') == k';
  }

  /** The witness computed from two accepting transcripts on one commitment. */
  function Extract(z: Scalar, c: Scalar, z': Scalar, c': Scalar): Scalar
    requires c != c'
  {
    NotEqual(c', c);
    Mul(Sub(z, z'), Inv(Sub(c', c)))
  }

  lemma NotEqual(a: Scalar, b: Scalar)
    requires a != b
    ensures Sub(a, b) != 0
  {
    if Sub(a, b) == 0 {
      DifferenceZero(a, b);
      assert false;
    }
  }

  /** z G' + c P == z' G' + c' P determines P as a multiple of G'. */
  lemma ExtractWorks(g: Scalar, p: Scalar, z: Scalar, c: Scalar, z': Scalar, c': Scalar)
    requires c != c'
    requires Add(Mul(g, z), Mul(p, c)) == Add(Mul(g, z'), Mul(p, c'))
    ensures Mul(g, Extract(z, c, z', c')) == p
  {
    NotEqual(c', c);
    var d := Sub(c', c);
    MoveTerms(g, p, z, c, z', c');
    MulAssoc(g, Sub(z, z'), Inv(d));
    MulAssoc(p, d, Inv(d));
    Identities(p);
  }

  lemma MoveTerms(g: Scalar, p: Scalar, z: Scalar, c: Scalar, z': Scalar, c': Scalar)
    requires Add(Mul(g, z), Mul(p, c)) == Add(Mul(g, z'), Mul(p, c'))
    ensures Mul(g, Sub(z, z')) == Mul(p, Sub(c', c))
  {
    DistributeSub(g, z, z');
    DistributeSub(p, c', c);
    MoveAcross(Mul(g, z), Mul(p, c), Mul(g, z'), Mul(p, c'));
  }

  lemma MoveAcross(a: Scalar, b: Scalar, c: Scalar, d: Scalar)
    requires Add(a, b) == Add(c, d)
    ensures Sub(a, c) == Sub(d, b)
  {
    assert Sub(Sub(Add(a, b), b), c) == Sub(a, c) by { Ring(); }
    assert Sub(Sub(Add(c, d), b), c) == Sub(d, b) by { Ring(); }
  }

  /** Special soundness of Schnorr's protocol. */
  lemma SchnorrExtracts(a: InteractiveDLogProof, b: InteractiveDLogProof, point: Point, commitment: Point)
    requires SchnorrAccepts(a, point, commitment) && SchnorrAccepts(b, point, commitment)
    requires ChallengeScalar(a.challenge) != ChallengeScalar(b.challenge)
    ensures point == Base(Extract(a.response, ChallengeScalar(a.challenge), b.response, ChallengeScalar(b.challenge)))
  {
    var w := Extract(a.response, ChallengeScalar(a.challenge), b.response, ChallengeScalar(b.challenge));
    Commute(1, a.response); Identities(a.response);
    Commute(1, b.response); Identities(b.response);
    ExtractWorks(1, point.log, a.response, ChallengeScalar(a.challenge), b.response, ChallengeScalar(b.challenge));
    Commute(1, w); Identities(w);
  }

  // The Fischlin transform

  datatype DLogProof = DLogProof(point: Point, rand_commitments: seq<Point>, proofs: seq<InteractiveDLogProof>)

  datatype ProofSearch = SearchExhausted

  /** The concatenated encodings of the random commitments. */
  function PointsBytes(points: seq<Point>): Bytes {
    if points == [] then [] else PointsBytes(points[..|points| - 1]) + PointBytes(points[|points| - 1])
  }

  /** The one-byte hash of the proof at an index. */
  function FischlinHash(sid: Bytes, rc: Bytes, index: nat, proof: InteractiveDLogProof): Byte {
    TaggedHash(TAG_DLOG_PROOF_FISCHLIN,
      [sid, PointBytes(GENERATOR) + rc + BigEndian(index, 2) + proof.challenge + ScalarBytes(proof.response)])[0]
  }

  ghost predicate PairAccepts(proof: DLogProof, sid: Bytes, i: nat)
    requires |proof.rand_commitments| == R && |proof.proofs| == R && i < R / 2
  {
    var rc := PointsBytes(proof.rand_commitments);
    && FischlinHash(sid, rc, i, proof.proofs[i]) == FischlinHash(sid, rc, i + R / 2, proof.proofs[i + R / 2])
    && SchnorrAccepts(proof.proofs[i], proof.point, proof.rand_commitments[i])
    && SchnorrAccepts(proof.proofs[i + R / 2], proof.point, proof.rand_commitments[i + R / 2])
  }

  /** What a verifier of a discrete logarithm proof demands. */
  ghost predicate DLogAccepts(proof: DLogProof, sid: Bytes) {
    && |proof.rand_commitments| == R && |proof.proofs| == R
    && NoRepeats(proof.rand_commitments)
    && forall i :: 0 <= i < R / 2 ==> PairAccepts(proof, sid, i)
  }

  /** The repetition test of DLogProof::verify, which also concatenates the commitments. */
  method DistinctCommitments(points: seq<Point>) returns (distinct: bool, rc: Bytes)
    ensures distinct == NoRepeats(points)
    ensures distinct ==> rc == PointsBytes(points)
  {
    var seen: set<Bytes> := {};
    rc := [];
    for i := 0 to |points|
      invariant NoRepeats(points[..i])
      invariant seen == set k | 0 <= k < i :: PointBytes(points[k])
      invariant rc == PointsBytes(points[..i])
    {
      if PointBytes(points[i]) in seen {
        ghost var k :| 0 <= k < i && PointBytes(points[k]) == PointBytes(points[i]);
        PointBytesInjective(points[k], points[i]);
        return false, rc;
      }
      assert points[..i + 1][..i] == points[..i];
      seen := seen + {PointBytes(points[i])};
      rc := rc + PointBytes(points[i]);
    }
    assert points[..|points|] == points;
    return true, rc;
  }

  /** DLogProof::verify */
  method VerifyDLog(proof: DLogProof, sid: Bytes) returns (ok: bool)
    ensures ok == DLogAccepts(proof, sid)
  {
    hide FischlinHash, SchnorrAccepts, PointsBytes, NoRepeats;
    if |proof.rand_commitments| != R || |proof.proofs| != R {
      return false;
    }
    var points := proof.rand_commitments;
    var distinct, rc := DistinctCommitments(points);
    if !distinct {
      return false;
    }
    for i := 0 to R / 2
      invariant forall k :: 0 <= k < i ==> PairAccepts(proof, sid, k)
    {
      var first_hash := FischlinHash(sid, rc, i, proof.proofs[i]);
      var second_hash := FischlinHash(sid, rc, i + R / 2, proof.proofs[i + R / 2]);
      if first_hash != second_hash {
        assert !PairAccepts(proof, sid, i);
        return false;
      }
      var verification_1 := SchnorrAccepts(proof.proofs[i], proof.point, points[i]);
      var verification_2 := SchnorrAccepts(proof.proofs[i + R / 2], proof.point, points[i + R / 2]);
      if !verification_1 || !verification_2 {
        assert !PairAccepts(proof, sid, i);
        return false;
      }
    }
    return true;
  }

  /** The challenges a prover draws: the a-th one at index i, and the b-th one tried against it. */
  datatype Draws = Draws(first: (nat, nat) -> Challenge, second: (nat, nat, nat) -> Challenge)

  function Points(states: seq<Scalar>): seq<Point> {
    seq(|states|, i requires 0 <= i < |states| => Base(states[i]))
  }

  /** Draw (a, b) at index i makes the two hashes collide. */
  ghost predicate Collides(scalar: Scalar, sid: Bytes, states: seq<Scalar>, draws: Draws, i: nat, a: nat, b: nat)
    requires |states| == R && i < R / 2
  {
    var rc := PointsBytes(Points(states));
    FischlinHash(sid, rc, i, ProveStep2(scalar, states[i], draws.first(i, a)))
    == FischlinHash(sid, rc, i + R / 2, ProveStep2(scalar, states[i + R / 2], draws.second(i, a, b)))
  }

  /** Some draw within the counters' bounds collides at index i. */
  ghost predicate Findable(scalar: Scalar, sid: Bytes, states: seq<Scalar>, draws: Draws, i: nat)
    requires |states| == R && i < R / 2
  {
    exists a: nat, b: nat :: a < MAX_TRIES && b < MAX_TRIES && Collides(scalar, sid, states, draws, i, a, b)
  }

  /** Proofs p and q at indices i and i + R/2 come from a colliding draw. */
  ghost predicate FoundPair(scalar: Scalar, sid: Bytes, states: seq<Scalar>, draws: Draws, i: nat,
                            p: InteractiveDLogProof, q: InteractiveDLogProof)
    requires |states| == R && i < R / 2
  {
    exists a: nat, b: nat :: Collides(scalar, sid, states, draws, i, a, b)
      && p == ProveStep2(scalar, states[i], draws.first(i, a))
      && q == ProveStep2(scalar, states[i + R / 2], draws.second(i, a, b))
  }

  /** The proof-of-work search of DLogProof::prove at index i. */
  method SearchPair(scalar: Scalar, sid: Bytes, states: seq<Scalar>, draws: Draws, rc: Bytes, i: nat)
    returns (r: Option<(InteractiveDLogProof, InteractiveDLogProof)>)
    requires |states| == R && i < R / 2 && rc == PointsBytes(Points(states))
    ensures r.Some? <==> Findable(scalar, sid, states, draws, i)
    ensures r.Some? ==> FoundPair(scalar, sid, states, draws, i, r.value.0, r.value.1)
  {
    hide FischlinHash, ProveStep2, PointsBytes, Points;
    var first_counter := 0;
    while first_counter < MAX_TRIES
      invariant 0 <= first_counter <= MAX_TRIES
      invariant forall a: nat, b: nat :: a < first_counter && b < MAX_TRIES ==> !Collides(scalar, sid, states, draws, i, a, b)
    {
      var first_proof := ProveStep2(scalar, states[i], draws.first(i, first_counter));
      var first_hash := FischlinHash(sid, rc, i, first_proof);
      var second_counter := 0;
      while second_counter < MAX_TRIES
        invariant 0 <= second_counter <= MAX_TRIES
        invariant forall b: nat :: b < second_counter ==> !Collides(scalar, sid, states, draws, i, first_counter, b)
      {
        var second_proof := ProveStep2(scalar, states[i + R / 2], draws.second(i, first_counter, second_counter));
        var second_hash := FischlinHash(sid, rc, i + R / 2, second_proof);
        if first_hash == second_hash {
          assert Collides(scalar, sid, states, draws, i, first_counter, second_counter);
          return Some((first_proof, second_proof));
        }
        second_counter := second_counter + 1;
      }
      first_counter := first_counter + 1;
    }
    return None;
  }

  /** DLogProof::prove for the random commitments given by states. */
  method ProveDLog(scalar: Scalar, sid: Bytes, states: seq<Scalar>, draws: Draws)
    returns (r: Result<DLogProof, ProofSearch>)
    requires |states| == R
    ensures r.Ok? <==> forall i :: 0 <= i < R / 2 ==> Findable(scalar, sid, states, draws, i)
    ensures r.Ok? ==>
      && r.value.point == Base(scalar) && r.value.rand_commitments == Points(states) && |r.value.proofs| == R
      && forall i :: 0 <= i < R / 2 ==>
           FoundPair(scalar, sid, states, draws, i, r.value.proofs[i], r.value.proofs[i + R / 2])
  {
    hide Findable, FoundPair, PointsBytes;
    var rand_commitments := [];
    for i := 0 to R
      invariant |rand_commitments| == i
      invariant forall k :: 0 <= k < i ==> rand_commitments[k] == Base(states[k])
    {
      rand_commitments := rand_commitments + [Base(states[i])];
    }
    assert rand_commitments == Points(states);
    var rc := PointsBytes(rand_commitments);
    var first_proofs: seq<InteractiveDLogProof> := [];
    var last_proofs: seq<InteractiveDLogProof> := [];
    for i := 0 to R / 2
      invariant |first_proofs| == |last_proofs| == i
      invariant forall k :: 0 <= k < i ==> Findable(scalar, sid, states, draws, k)
      invariant forall k :: 0 <= k < i ==> FoundPair(scalar, sid, states, draws, k, first_proofs[k], last_proofs[k])
    {
      var pair := SearchPair(scalar, sid, states, draws, rc, i);
      if pair.None? {
        return Err(SearchExhausted);
      }
      first_proofs := first_proofs + [pair.value.0];
      last_proofs := last_proofs + [pair.value.1];
    }
    return Ok(DLogProof(Base(scalar), rand_commitments, first_proofs + last_proofs));
  }

  /** Every proof that is produced from distinct random commitments is accepted. */
  lemma ProvedIsAccepted(scalar: Scalar, sid: Bytes, states: seq<Scalar>, draws: Draws, proof: DLogProof)
    requires |states| == R && |proof.proofs| == R
    requires proof.point == Base(scalar) && proof.rand_commitments == Points(states)
    requires forall i :: 0 <= i < R / 2 ==>
      FoundPair(scalar, sid, states, draws, i, proof.proofs[i], proof.proofs[i + R / 2])
    ensures DLogAccepts(proof, sid) <==> NoRepeats(proof.rand_commitments)
  {
    forall i | 0 <= i < R / 2 ensures PairAccepts(proof, sid, i) {
      var a: nat, b: nat :| Collides(scalar, sid, states, draws, i, a, b)
        && proof.proofs[i] == ProveStep2(scalar, states[i], draws.first(i, a))
        && proof.proofs[i + R / 2] == ProveStep2(scalar, states[i + R / 2], draws.second(i, a, b));
      SchnorrComplete(scalar, states[i], draws.first(i, a));
      SchnorrComplete(scalar, states[i + R / 2], draws.second(i, a, b));
    }
  }

  /** The commitment to a proof is the hash of everything in it. */
  function ProofBytes(proof: DLogProof): Bytes {
    PointBytes(proof.point) + PointsBytes(proof.rand_commitments)
    + ChallengesBytes(proof.proofs) + ResponsesBytes(proof.proofs)
  }

  function ChallengesBytes(proofs: seq<InteractiveDLogProof>): Bytes {
    if proofs == [] then [] else proofs[0].challenge + ChallengesBytes(proofs[1..])
  }

  function ResponsesBytes(proofs: seq<InteractiveDLogProof>): Bytes {
    if proofs == [] then [] else ScalarBytes(proofs[0].response) + ResponsesBytes(proofs[1..])
  }

  function ProofCommitmentHash(proof: DLogProof, sid: Bytes): HashOutput {
    TaggedHash(TAG_DLOG_PROOF_COMMITMENT, [sid, ProofBytes(proof)])
  }

  ghost predicate DecommitAccepts(proof: DLogProof, commitment: HashOutput, sid: Bytes) {
    commitment == ProofCommitmentHash(proof, sid) && DLogAccepts(proof, sid)
  }

  /** DLogProof::decommit_verify */
  method DecommitVerify(proof: DLogProof, commitment: HashOutput, sid: Bytes) returns (ok: bool)
    ensures ok == DecommitAccepts(proof, commitment, sid)
  {
    var verified := VerifyDLog(proof, sid);
    return commitment == ProofCommitmentHash(proof, sid) && verified;
  }

  // Chaum-Pedersen

  datatype RandomCommitments = RandomCommitments(rc_g: Point, rc_h: Point)

  datatype CPProof = CPProof(base_g: Point, base_h: Point, point_u: Point, point_v: Point, response: Scalar)

  function CPCommit(base_g: Point, base_h: Point, k: Scalar): RandomCommitments {
    RandomCommitments(Times(base_g, k), Times(base_h, k))
  }

  function CPRespond(base_g: Point, base_h: Point, scalar: Scalar, k: Scalar, challenge: Scalar): CPProof {
    CPProof(base_g, base_h, Times(base_g, scalar), Times(base_h, scalar), Sub(k, Mul(challenge, scalar)))
  }

  predicate CPAccepts(proof: CPProof, commitments: RandomCommitments, challenge: Scalar) {
    && Plus(Times(proof.base_g, proof.response), Times(proof.point_u, challenge)) == commitments.rc_g
    && Plus(Times(proof.base_h, proof.response), Times(proof.point_v, challenge)) == commitments.rc_h
  }

  /** CPProof::simulate for given challenge and response. */
  function CPSimulate(base_g: Point, base_h: Point, point_u: Point, point_v: Point, challenge: Scalar, response: Scalar)
    : (RandomCommitments, CPProof)
  {
    (RandomCommitments(Plus(Times(base_g, response), Times(point_u, challenge)),
                       Plus(Times(base_h, response), Times(point_v, challenge))),
     CPProof(base_g, base_h, point_u, point_v, response))
  }

  lemma CPComplete(base_g: Point, base_h: Point, scalar: Scalar, k: Scalar, challenge: Scalar)
    ensures CPAccepts(CPRespond(base_g, base_h, scalar, k, challenge), CPCommit(base_g, base_h, k), challenge)
  {
    CancelAt(base_g.log, k, challenge, scalar);
    CancelAt(base_h.log, k, challenge, scalar);
  }

  lemma CancelAt(g: Scalar, k: Scalar, c: Scalar, x: Scalar)
    ensures Add(Mul(g, Sub(k, Mul(c, x))), Mul(Mul(g, x), c)) == Mul(g, k)
  {
    MulAssoc(g, x, c);
    Commute(x, c);
    DistributeSub(g, k, Mul(c, x));
    SubThenAdd(Mul(g, k), Mul(g, Mul(c, x)));
  }

  lemma SubThenAdd(a: Scalar, b: Scalar)
    ensures Add(Sub(a, b), b) == a
  {
    var a': int, b': int := a, b;
    OfScalar(a); OfScalar(b);
    OfNeg(b'); OfAdd(a', (-b')); OfAdd((a' + (-b')), b');
    assert (a' + (-b')) + b' == a';
  }

  /** Special soundness: the witness is the same for both bases. */
  lemma CPExtracts(a: CPProof, b: CPProof, commitments: RandomCommitments, c: Scalar, c': Scalar)
    requires a.base_g == b.base_g && a.base_h == b.base_h && a.point_u == b.point_u && a.point_v == b.point_v
    requires CPAccepts(a, commitments, c) && CPAccepts(b, commitments, c') && c != c'
    ensures var w := Extract(a.response, c, b.response, c');
      Times(a.base_g, w) == a.point_u && Times(a.base_h, w) == a.point_v
  {
    ExtractWorks(a.base_g.log, a.point_u.log, a.response, c, b.response, c');
    ExtractWorks(a.base_h.log, a.point_v.log, a.response, c, b.response, c');
  }

  // The encryption proof: an OR of two Chaum-Pedersen proofs

  datatype EncProof = EncProof(
    proof0: CPProof, proof1: CPProof,
    commitments0: RandomCommitments, commitments1: RandomCommitments,
    challenge0: Scalar, challenge1: Scalar)

  /** u and v of section 3 of the endemic OT paper. */
  function GetUAndV(proof: EncProof): (Point, Point) {
    (proof.proof0.point_v, proof.proof0.point_u)
  }

  function EncChallenge(sid: Bytes, base_g: Point, base_h: Point, u: Point, v: Point,
                        rc0: RandomCommitments, rc1: RandomCommitments): Scalar {
    TaggedScalar(TAG_ENCPROOF_FS,
      [sid, PointBytes(base_g) + PointBytes(base_h) + PointBytes(u) + PointBytes(v)
            + PointBytes(rc0.rc_g) + PointBytes(rc0.rc_h) + PointBytes(rc1.rc_g) + PointBytes(rc1.rc_h)])
  }

  /** EncProof::prove, given the prover's random choices. */
  function ProveEnc(sid: Bytes, base_h: Point, scalar: Scalar, bit: bool,
                    k: Scalar, fake_challenge: Scalar, fake_response: Scalar): EncProof {
    var base_g := GENERATOR;
    var u := Times(base_h, scalar);
    var g_times_scalar := Times(base_g, scalar);
    var v := if bit then Plus(g_times_scalar, base_h) else g_times_scalar;
    var fake_v := if bit then Plus(g_times_scalar, base_h) else Plus(g_times_scalar, Minus(base_h));
    var real_commitments := CPCommit(base_g, base_h, k);
    var (fake_commitments, fake_proof) := CPSimulate(base_g, base_h, fake_v, u, fake_challenge, fake_response);
    var challenge :=
      if bit then EncChallenge(sid, base_g, base_h, u, v, fake_commitments, real_commitments)
      else EncChallenge(sid, base_g, base_h, u, v, real_commitments, fake_commitments);
    var real_challenge := Sub(challenge, fake_challenge);
    var real_proof := CPRespond(base_g, base_h, scalar, k, real_challenge);
    if bit then EncProof(fake_proof, real_proof, fake_commitments, real_commitments, fake_challenge, real_challenge)
    else EncProof(real_proof, fake_proof, real_commitments, fake_commitments, real_challenge, fake_challenge)
  }

  /** EncProof::verify */
  predicate EncAccepts(proof: EncProof, sid: Bytes) {
    && proof.proof0.base_g == GENERATOR
    && proof.proof0.base_g == proof.proof1.base_g
    && proof.proof0.base_h == proof.proof1.base_h
    && proof.proof0.point_v == proof.proof1.point_v
    && proof.proof0.point_u == Plus(proof.proof1.point_u, proof.proof1.base_h)
    && EncChallenge(sid, proof.proof0.base_g, proof.proof0.base_h, proof.proof0.point_v, proof.proof0.point_u,
                    proof.commitments0, proof.commitments1)
       == Add(proof.challenge0, proof.challenge1)
    && CPAccepts(proof.proof0, proof.commitments0, proof.challenge0)
    && CPAccepts(proof.proof1, proof.commitments1, proof.challenge1)
  }

  /** Every encryption proof is accepted, and v hides the bit as v = bit * h + scalar * g. */
  lemma EncComplete(sid: Bytes, base_h: Point, scalar: Scalar, bit: bool,
                    k: Scalar, fake_challenge: Scalar, fake_response: Scalar)
    ensures var proof := ProveEnc(sid, base_h, scalar, bit, k, fake_challenge, fake_response);
      && EncAccepts(proof, sid)
      && proof.proof0.base_h == base_h
      && GetUAndV(proof) == (Times(base_h, scalar), if bit then Plus(Base(scalar), base_h) else Base(scalar))
  {
    hide EncChallenge, CPAccepts;
    var proof := ProveEnc(sid, base_h, scalar, bit, k, fake_challenge, fake_response);
    var real_challenge := if bit then proof.challenge1 else proof.challenge0;
    CPComplete(GENERATOR, base_h, scalar, k, real_challenge);
    var u := Times(base_h, scalar);
    var g := Times(GENERATOR, scalar);
    assert g == Base(scalar);
    Simulated(GENERATOR, base_h, if bit then Plus(g, base_h) else Plus(g, Minus(base_h)), u, fake_challenge, fake_response);
    SubThenAdd(g.log, base_h.log);
    var challenge := EncChallenge(sid, GENERATOR, base_h, u, if bit then Plus(g, base_h) else g, proof.commitments0, proof.commitments1);
    SubThenAdd(challenge, fake_challenge);
    Commute(fake_challenge, Sub(challenge, fake_challenge));
  }

  lemma Simulated(base_g: Point, base_h: Point, point_u: Point, point_v: Point, challenge: Scalar, response: Scalar)
    ensures var (commitments, proof) := CPSimulate(base_g, base_h, point_u, point_v, challenge, response);
      CPAccepts(proof, commitments, challenge)
  {}

  /** The witness behind two accepting encryption proofs with the same commitments: from branch 0 if its challenges
      differ, else from branch 1. */
  function EncWitness(a: EncProof, b: EncProof): Scalar
    requires a.challenge0 != b.challenge0 || a.challenge1 != b.challenge1
  {
    if a.challenge0 != b.challenge0 then Extract(a.proof0.response, a.challenge0, b.proof0.response, b.challenge0)
    else Extract(a.proof1.response, a.challenge1, b.proof1.response, b.challenge1)
  }

  /** Special soundness of the OR-composition: from two accepting proofs of one statement, with the same commitments and
      different challenge sums, EncWitness computes the discrete logarithm of u to base h, and it opens v to the bit 0 if
      the challenges of branch 0 differ and to the bit 1 otherwise. */
  lemma EncExtracts(a: EncProof, b: EncProof, sid: Bytes, sid': Bytes)
    requires EncAccepts(a, sid) && EncAccepts(b, sid')
    requires a.commitments0 == b.commitments0 && a.commitments1 == b.commitments1
    requires a.proof0.base_h == b.proof0.base_h && GetUAndV(a) == GetUAndV(b)
    requires Add(a.challenge0, a.challenge1) != Add(b.challenge0, b.challenge1)
    ensures a.challenge0 != b.challenge0 || a.challenge1 != b.challenge1
    ensures var w := EncWitness(a, b);
      var h := a.proof0.base_h;
      var (u, v) := GetUAndV(a);
      && Times(h, w) == u
      && v == if a.challenge0 != b.challenge0 then Base(w) else Plus(Base(w), h)
  {
    hide EncChallenge, CPAccepts;
    var w := EncWitness(a, b);
    assert Times(GENERATOR, w) == Base(w);
    if a.challenge0 != b.challenge0 {
      CPExtracts(a.proof0, b.proof0, a.commitments0, a.challenge0, b.challenge0);
    } else {
      SameSummand(a.proof1.point_u.log, b.proof1.point_u.log, a.proof0.base_h.log);
      CPExtracts(a.proof1, b.proof1, a.commitments1, a.challenge1, b.challenge1);
    }
  }

  lemma SameSummand(a: Scalar, b: Scalar, c: Scalar)
    requires Add(a, c) == Add(b, c)
    ensures a == b
  {
    assert Sub(Add(a, c), c) == a by { AddThenSub(a, c); }
    assert Sub(Add(b, c), c) == b by { AddThenSub(b, c); }
  }
}
