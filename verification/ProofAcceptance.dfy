/** What a verifier's acceptance means equation by equation, and that an accepted proof has no part that can be changed
    on its own. */
module ProofAcceptance {
  import opened Outcomes
  import opened PrimeField
  import opened Hashes
  import opened Curve
  import opened OracleTags
  import opened Sequences
  import opened Proofs
  import opened BaseOT

  // Proofs of a discrete logarithm

  /** What is hashed for index i: the generator, all commitments, the index in two bytes, challenge and response. */
  ghost function FischlinDigest(proof: DLogProof, sid: Bytes, i: nat): HashOutput
    requires i < |proof.proofs|
  {
    TaggedHash(TAG_DLOG_PROOF_FISCHLIN,
      [sid, PointBytes(GENERATOR) + PointsBytes(proof.rand_commitments) + BigEndian(i, 2) + proof.proofs[i].challenge
            + ScalarBytes(proof.proofs[i].response)])
  }

  /** Challenge i as a scalar: padded with leading zeros to 32 bytes and reduced. */
  ghost function ChallengeAt(proof: DLogProof, i: nat): Scalar
    requires i < |proof.proofs|
  {
    var c := proof.proofs[i].challenge;
    if |c| <= 32 then ReduceHash(seq(32 - |c|, _ => 0) + c) else 0
  }

  /** Equation i of a proof: z G + c P is commitment i. */
  ghost predicate SchnorrEquation(proof: DLogProof, i: nat)
    requires i < |proof.proofs| && i < |proof.rand_commitments|
  {
    && 0 < |proof.proofs[i].challenge| <= 4
    && Plus(Base(proof.proofs[i].response), Times(proof.point, ChallengeAt(proof, i))) == proof.rand_commitments[i]
  }

  /** A proof is accepted just when it has 64 different commitments, all 64 Schnorr equations hold, and the digests at i and
      i + 32 agree in their first byte. */
  lemma DLogAcceptedMeans(proof: DLogProof, sid: Bytes)
    ensures DLogAccepts(proof, sid) <==>
      && |proof.rand_commitments| == |proof.proofs| == 64
      && (forall i, j :: 0 <= i < j < 64 ==> proof.rand_commitments[i] != proof.rand_commitments[j])
      && (forall i :: 0 <= i < 64 ==> SchnorrEquation(proof, i))
      && (forall i :: 0 <= i < 32 ==> FischlinDigest(proof, sid, i)[0] == FischlinDigest(proof, sid, i + 32)[0])
  {
    hide PairAccepts, SchnorrEquation, FischlinDigest;
    if |proof.rand_commitments| == |proof.proofs| == 64 {
      forall i | 0 <= i < 32 ensures PairAccepts(proof, sid, i) <==> PairEquations(proof, sid, i) {
        PairAcceptedMeans(proof, sid, i);
      }
      if forall i :: 0 <= i < 32 ==> PairEquations(proof, sid, i) {
        forall i | 0 <= i < 64 ensures SchnorrEquation(proof, i) {
          assert PairEquations(proof, sid, if i < 32 then i else i - 32);
        }
        forall i | 0 <= i < 32 ensures FischlinDigest(proof, sid, i)[0] == FischlinDigest(proof, sid, i + 32)[0] {
          assert PairEquations(proof, sid, i);
        }
      }
    }
  }

  /** What is demanded of the pair of indices i and i + 32. */
  ghost predicate PairEquations(proof: DLogProof, sid: Bytes, i: nat)
    requires |proof.rand_commitments| == |proof.proofs| == 64 && i < 32
  {
    && SchnorrEquation(proof, i) && SchnorrEquation(proof, i + 32)
    && FischlinDigest(proof, sid, i)[0] == FischlinDigest(proof, sid, i + 32)[0]
  }

  lemma PairAcceptedMeans(proof: DLogProof, sid: Bytes, i: nat)
    requires |proof.rand_commitments| == |proof.proofs| == R && i < R / 2
    ensures PairAccepts(proof, sid, i) <==> PairEquations(proof, sid, i)
  {
    hide SchnorrAccepts, SchnorrEquation, FischlinHash, FischlinDigest;
    EquationMeans(proof, i);
    EquationMeans(proof, i + R / 2);
    DigestMeans(proof, sid, i);
    DigestMeans(proof, sid, i + R / 2);
  }

  lemma EquationMeans(proof: DLogProof, i: nat)
    requires |proof.rand_commitments| == |proof.proofs| == R && i < R
    ensures SchnorrAccepts(proof.proofs[i], proof.point, proof.rand_commitments[i]) <==> SchnorrEquation(proof, i)
  {}

  lemma DigestMeans(proof: DLogProof, sid: Bytes, i: nat)
    requires i < |proof.proofs|
    ensures FischlinHash(sid, PointsBytes(proof.rand_commitments), i, proof.proofs[i]) == FischlinDigest(proof, sid, i)[0]
  {}

  lemma EquationOf(proof: DLogProof, sid: Bytes, i: nat)
    requires DLogAccepts(proof, sid) && i < R
    ensures |proof.proofs| == |proof.rand_commitments| == R
    ensures SchnorrAccepts(proof.proofs[i], proof.point, proof.rand_commitments[i])
    ensures |proof.proofs[i].challenge| <= T_BYTES && ChallengeAt(proof, i) == ChallengeScalar(proof.proofs[i].challenge)
  {
    assert PairAccepts(proof, sid, if i < R / 2 then i else i - R / 2);
  }

  /** Two accepted proofs for one point that share commitment i but not its challenge determine the logarithm. */
  lemma DLogExtracts(a: DLogProof, b: DLogProof, sid: Bytes, sid': Bytes, i: nat)
    requires DLogAccepts(a, sid) && DLogAccepts(b, sid') && i < R
    requires a.point == b.point && a.rand_commitments[i] == b.rand_commitments[i]
    requires ChallengeAt(a, i) != ChallengeAt(b, i)
    ensures a.point == Base(Extract(a.proofs[i].response, ChallengeAt(a, i), b.proofs[i].response, ChallengeAt(b, i)))
  {
    EquationOf(a, sid, i);
    EquationOf(b, sid', i);
    SchnorrExtracts(a.proofs[i], b.proofs[i], a.point, a.rand_commitments[i]);
  }

  /** No response, commitment or point of an accepted proof can be replaced on its own; the point only if every challenge
      reduces to zero. */
  lemma DLogPartsFixed(proof: DLogProof, sid: Bytes, sid': Bytes, i: nat, response: Scalar, other: Point)
    requires DLogAccepts(proof, sid) && i < R
    ensures response != proof.proofs[i].response ==>
      !DLogAccepts(proof.(proofs := proof.proofs[i := proof.proofs[i].(response := response)]), sid')
    ensures other != proof.rand_commitments[i] ==>
      !DLogAccepts(proof.(rand_commitments := proof.rand_commitments[i := other]), sid')
    ensures other != proof.point && DLogAccepts(proof.(point := other), sid') ==> ChallengeAt(proof, i) == 0
  {
    hide DLogAccepts;
    EquationOf(proof, sid, i);
    var changed := proof.(proofs := proof.proofs[i := proof.proofs[i].(response := response)]);
    var c := ChallengeAt(proof, i);
    if DLogAccepts(changed, sid') {
      EquationOf(changed, sid', i);
      SameSummand(response, proof.proofs[i].response, Mul(proof.point.log, c));
    }
    if DLogAccepts(proof.(rand_commitments := proof.rand_commitments[i := other]), sid') {
      EquationOf(proof.(rand_commitments := proof.rand_commitments[i := other]), sid', i);
    }
    if DLogAccepts(proof.(point := other), sid') {
      EquationOf(proof.(point := other), sid', i);
      SameOtherSummand(proof.proofs[i].response, Mul(other.log, c), Mul(proof.point.log, c));
      SameFactor(other.log, proof.point.log, c);
    }
  }

  lemma SameOtherSummand(a: Scalar, b: Scalar, c: Scalar)
    requires Add(a, b) == Add(a, c)
    ensures b == c
  {
    Commute(a, b);
    Commute(a, c);
    SameSummand(b, c, a);
  }

  lemma SameFactor(a: Scalar, b: Scalar, c: Scalar)
    requires Mul(a, c) == Mul(b, c)
    ensures a == b || c == 0
  {
    Commute(a, c);
    Commute(b, c);
    DistributeSub(c, a, b);
    Identities(Mul(c, a));
    if c != 0 {
      NoZeroDivisors(c, Sub(a, b));
      DifferenceZero(a, b);
    }
  }

  // Encryption proofs

  /** The challenge that binds statement and commitments. */
  ghost function EncDigest(sid: Bytes, h: Point, u: Point, v: Point, rc0: RandomCommitments, rc1: RandomCommitments): HashOutput {
    TaggedHash(TAG_ENCPROOF_FS,
      [sid, PointBytes(GENERATOR) + PointBytes(h) + PointBytes(u) + PointBytes(v)
            + PointBytes(rc0.rc_g) + PointBytes(rc0.rc_h) + PointBytes(rc1.rc_g) + PointBytes(rc1.rc_h)])
  }

  /** One branch for the statement (value, u) to the bases G and h. */
  ghost predicate BranchEquations(h: Point, value: Point, u: Point, response: Scalar, rc: RandomCommitments, challenge: Scalar) {
    && Plus(Base(response), Times(value, challenge)) == rc.rc_g
    && Plus(Times(h, response), Times(u, challenge)) == rc.rc_h
  }

  /** An encryption proof is accepted just when both branches are about one h and u, the second one with v - h in place of
      v, the challenges add up to the hash of statement and commitments, and all four equations hold. */
  lemma EncAcceptedMeans(proof: EncProof, sid: Bytes)
    ensures var (p, q) := (proof.proof0, proof.proof1);
      var (h, u, v) := (p.base_h, p.point_v, p.point_u);
      EncAccepts(proof, sid) <==>
        && p.base_g == q.base_g == GENERATOR && q.base_h == h && q.point_v == u && v == Plus(q.point_u, h)
        && Add(proof.challenge0, proof.challenge1)
           == ReduceHash(EncDigest(sid, h, u, v, proof.commitments0, proof.commitments1))
        && BranchEquations(h, v, u, p.response, proof.commitments0, proof.challenge0)
        && BranchEquations(h, q.point_u, u, q.response, proof.commitments1, proof.challenge1)
  {
    assert Times(GENERATOR, proof.proof0.response) == Base(proof.proof0.response);
    assert Times(GENERATOR, proof.proof1.response) == Base(proof.proof1.response);
  }

  /** Two accepted proofs of one statement with the same commitments and the same first challenge are the same proof. */
  lemma EncDetermined(a: EncProof, b: EncProof, sid: Bytes)
    requires EncAccepts(a, sid) && EncAccepts(b, sid)
    requires a.proof0.base_h == b.proof0.base_h && GetUAndV(a) == GetUAndV(b)
    requires a.commitments0 == b.commitments0 && a.commitments1 == b.commitments1 && a.challenge0 == b.challenge0
    ensures a == b
  {
    EncAcceptedMeans(a, sid);
    EncAcceptedMeans(b, sid);
    SameSummand(a.proof1.point_u.log, b.proof1.point_u.log, a.proof0.base_h.log);
    SameOtherSummand(a.challenge0, a.challenge1, b.challenge1);
    SameSummand(a.proof0.response, b.proof0.response, Mul(a.proof0.point_u.log, a.challenge0));
    SameSummand(a.proof1.response, b.proof1.response, Mul(a.proof1.point_u.log, a.challenge1));
  }

  /** No challenge, response or commitment of an accepted encryption proof can be replaced on its own. */
  lemma EncPartsFixed(proof: EncProof, sid: Bytes, x: Scalar, rc: RandomCommitments)
    requires EncAccepts(proof, sid)
    ensures x != proof.challenge0 ==> !EncAccepts(proof.(challenge0 := x), sid)
    ensures x != proof.challenge1 ==> !EncAccepts(proof.(challenge1 := x), sid)
    ensures x != proof.proof0.response ==> !EncAccepts(proof.(proof0 := proof.proof0.(response := x)), sid)
    ensures x != proof.proof1.response ==> !EncAccepts(proof.(proof1 := proof.proof1.(response := x)), sid)
    ensures rc != proof.commitments0 ==> !EncAccepts(proof.(commitments0 := rc), sid)
    ensures rc != proof.commitments1 ==> !EncAccepts(proof.(commitments1 := rc), sid)
  {
    hide EncChallenge;
    if x != proof.challenge0 && EncAccepts(proof.(challenge0 := x), sid) {
      SameSummand(x, proof.challenge0, proof.challenge1);
    }
    if x != proof.challenge1 && EncAccepts(proof.(challenge1 := x), sid) {
      SameOtherSummand(proof.challenge0, x, proof.challenge1);
    }
    if EncAccepts(proof.(proof0 := proof.proof0.(response := x)), sid) {
      EncDetermined(proof, proof.(proof0 := proof.proof0.(response := x)), sid);
    }
    if EncAccepts(proof.(proof1 := proof.proof1.(response := x)), sid) {
      EncDetermined(proof, proof.(proof1 := proof.proof1.(response := x)), sid);
    }
  }

  /** The nonce that the real branch of an accepted proof was made with. */
  ghost function RealNonce(proof: EncProof, scalar: Scalar, bit: bool): Scalar {
    if bit then Add(proof.proof1.response, Mul(proof.challenge1, scalar)) else Add(proof.proof0.response, Mul(proof.challenge0, scalar))
  }

  /** The prover can produce every accepted proof of its statement, and each from exactly one choice of its random values:
      the nonce, the fake challenge and the fake response. */
  lemma EncProverReachesAll(proof: EncProof, sid: Bytes, scalar: Scalar, bit: bool, k: Scalar, fake_challenge: Scalar,
                            fake_response: Scalar)
    requires EncAccepts(proof, sid)
    requires var h := proof.proof0.base_h;
      GetUAndV(proof) == (Times(h, scalar), if bit then Plus(Base(scalar), h) else Base(scalar))
    ensures ProveEnc(sid, proof.proof0.base_h, scalar, bit, k, fake_challenge, fake_response) == proof <==>
      && k == RealNonce(proof, scalar, bit)
      && fake_challenge == (if bit then proof.challenge0 else proof.challenge1)
      && fake_response == (if bit then proof.proof0.response else proof.proof1.response)
  {
    hide EncChallenge, EncAccepts;
    var h := proof.proof0.base_h;
    var made := ProveEnc(sid, h, scalar, bit, k, fake_challenge, fake_response);
    EncComplete(sid, h, scalar, bit, k, fake_challenge, fake_response);
    var c := if bit then made.challenge1 else made.challenge0;
    if made == proof {
      SubThenAdd(k, Mul(c, scalar));
    }
    if k == RealNonce(proof, scalar, bit) && fake_challenge == (if bit then proof.challenge0 else proof.challenge1)
       && fake_response == (if bit then proof.proof0.response else proof.proof1.response) {
      SameCommitments(proof, sid, scalar, bit, k, fake_challenge, fake_response);
      EncSum(proof, sid);
      EncSum(made, sid);
      if bit {
        EncDetermined(made, proof, sid);
      } else {
        SameSummand(made.challenge0, proof.challenge0, proof.challenge1);
        EncDetermined(made, proof, sid);
      }
    }
  }

  lemma EncSum(proof: EncProof, sid: Bytes)
    requires EncAccepts(proof, sid)
    ensures Add(proof.challenge0, proof.challenge1)
      == ReduceHash(EncDigest(sid, proof.proof0.base_h, proof.proof0.point_v, proof.proof0.point_u, proof.commitments0, proof.commitments1))
  {
    EncAcceptedMeans(proof, sid);
  }

  /** The commitments that the prover computes from these random values are those of the proof. */
  lemma SameCommitments(proof: EncProof, sid: Bytes, scalar: Scalar, bit: bool, k: Scalar, fake_challenge: Scalar,
                        fake_response: Scalar)
    requires EncAccepts(proof, sid)
    requires var h := proof.proof0.base_h;
      GetUAndV(proof) == (Times(h, scalar), if bit then Plus(Base(scalar), h) else Base(scalar))
    requires k == RealNonce(proof, scalar, bit)
    requires fake_challenge == (if bit then proof.challenge0 else proof.challenge1)
    requires fake_response == (if bit then proof.proof0.response else proof.proof1.response)
    ensures var made := ProveEnc(sid, proof.proof0.base_h, scalar, bit, k, fake_challenge, fake_response);
      made.commitments0 == proof.commitments0 && made.commitments1 == proof.commitments1
  {
    EncAcceptedMeans(proof, sid);
    hide EncChallenge, EncAccepts;
    var h := proof.proof0.base_h;
    assert forall z: Scalar :: Times(GENERATOR, z) == Base(z);
    if bit {
      SameSummand(proof.proof1.point_u.log, scalar, h.log);
      Factored(1, proof.proof1.response, proof.challenge1, scalar);
      Factored(h.log, proof.proof1.response, proof.challenge1, scalar);
    } else {
      Factored(1, proof.proof0.response, proof.challenge0, scalar);
      Factored(h.log, proof.proof0.response, proof.challenge0, scalar);
      AddThenSub(proof.proof1.point_u.log, h.log);
    }
  }

  lemma Factored(g: Scalar, z: Scalar, c: Scalar, x: Scalar)
    ensures Mul(g, Add(z, Mul(c, x))) == Add(Mul(g, z), Mul(Mul(g, x), c))
  {
    var g': int, z': int, c': int, x': int := g, z, c, x;
    OfScalar(g); OfScalar(z); OfScalar(c); OfScalar(x);
    OfMul(c', x'); OfAdd(z', (c' * x')); OfMul(g', (z' + (c' * x'))); OfMul(g', z'); OfMul(g', x');
    OfMul((g' * x'), c'); OfAdd((g' * z'), ((g' * x') * c'));
    assert g' * (z' + (c' * x')) == (g' * z') + ((g' * x') * c');
  }

  // The base OT

  /** The sender accepts a batch just when it is not too large and every proof is accepted under its own session id for the
      point that the seed determines. The messages are then hashes of s v and s (v - h). */
  lemma SenderBatchDecides(s: Scalar, sid: Bytes, seed: Seed, proofs: seq<EncProof>)
    ensures SenderBatch(s, sid, seed, proofs).Ok? <==>
      && |proofs| <= 65535
      && forall i :: 0 <= i < |proofs| ==>
           && EncAccepts(proofs[i], BigEndian(i, 2) + sid)
           && proofs[i].proof0.base_h == Base(TaggedScalar(TAG_OT_BASE_H, [BigEndian(i, 2) + sid, seed]))
    ensures SenderBatch(s, sid, seed, proofs).Ok? ==>
      var (m0, m1) := SenderBatch(s, sid, seed, proofs).value;
      forall i :: 0 <= i < |proofs| ==>
        var v, h, id := proofs[i].proof0.point_u, proofs[i].proof0.base_h, BigEndian(i, 2) + sid;
        && m0[i] == TaggedHash(TAG_OT_BASE_MSG, [id, PointBytes(Times(v, s))])
        && m1[i] == TaggedHash(TAG_OT_BASE_MSG, [id, PointBytes(Times(Plus(v, Minus(h)), s))])
    ensures SenderBatch(s, sid, seed, proofs).Err? ==>
      SenderBatch(s, sid, seed, proofs).error == if |proofs| > 65535 then BatchTooLarge else EncryptionProofFailed
  {
    hide EncAccepts;
    forall i | 0 <= i < |proofs|
      ensures SenderPhase2(s, InstanceId(i, sid), seed, proofs[i]).Ok? <==>
        && EncAccepts(proofs[i], BigEndian(i, 2) + sid)
        && proofs[i].proof0.base_h == Base(TaggedScalar(TAG_OT_BASE_H, [BigEndian(i, 2) + sid, seed]))
    {}
  }

  /** The receiver accepts just when the sender's proof of knowledge is accepted and the batch is not too large; message i is
      the hash of r_i z. */
  lemma ReceiverBatchDecides(sid: Bytes, vec_r: seq<Scalar>, dlog_proof: DLogProof)
    ensures ReceiverBatch(sid, vec_r, dlog_proof).Ok? <==> DLogAccepts(dlog_proof, sid) && |vec_r| <= 65535
    ensures ReceiverBatch(sid, vec_r, dlog_proof).Ok? ==>
      forall i :: 0 <= i < |vec_r| ==>
        ReceiverBatch(sid, vec_r, dlog_proof).value[i]
        == TaggedHash(TAG_OT_BASE_MSG, [BigEndian(i, 2) + sid, PointBytes(Times(dlog_proof.point, vec_r[i]))])
    ensures ReceiverBatch(sid, vec_r, dlog_proof).Err? ==>
      ReceiverBatch(sid, vec_r, dlog_proof).error == if DLogAccepts(dlog_proof, sid) then BatchTooLarge else DLogProofFailed
  {
    hide DLogAccepts;
  }

  /** An honest receiver's batch with one challenge, response or commitment of one proof replaced is rejected. */
  lemma TamperedBatchRejected(s: Scalar, sid: Bytes, seed: Seed, bits: seq<bool>, draws: seq<ReceiverDraw>, i: nat,
                              changed: EncProof)
    requires |draws| == |bits| <= 65535 && i < |bits|
    requires var proof := ReceiverProofs(seed, sid, bits, draws)[i];
      changed != proof && OnePartDiffers(proof, changed)
    ensures SenderBatch(s, sid, seed, ReceiverProofs(seed, sid, bits, draws)[i := changed]) == Err(EncryptionProofFailed)
  {
    hide ProveEnc, EncAccepts;
    var id := InstanceId(i, sid);
    var proof := ReceiverProofs(seed, sid, bits, draws)[i];
    EncComplete(id, SeedPoint(id, seed), draws[i].r, bits[i], draws[i].k, draws[i].fake_challenge, draws[i].fake_response);
    EncPartsFixed(proof, id, changed.challenge0, changed.commitments0);
    EncPartsFixed(proof, id, changed.challenge1, changed.commitments1);
    EncPartsFixed(proof, id, changed.proof0.response, changed.commitments0);
    EncPartsFixed(proof, id, changed.proof1.response, changed.commitments0);
    SenderBatchDecides(s, sid, seed, ReceiverProofs(seed, sid, bits, draws)[i := changed]);
  }

  /** Only one challenge, one response or one pair of commitments may differ. */
  ghost predicate OnePartDiffers(a: EncProof, b: EncProof) {
    || b == a.(challenge0 := b.challenge0)
    || b == a.(challenge1 := b.challenge1)
    || b == a.(proof0 := a.proof0.(response := b.proof0.response))
    || b == a.(proof1 := a.proof1.(response := b.proof1.response))
    || b == a.(commitments0 := b.commitments0)
    || b == a.(commitments1 := b.commitments1)
  }
}
