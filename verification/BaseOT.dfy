/** The endemic base OT. The receiver's choice bit selects one of the sender's two messages. */
module BaseOT {
  import opened Bits
  import opened Outcomes
  import opened PrimeField
  import opened Hashes
  import opened Curve
  import opened OracleTags
  import opened Proofs

  type Seed = HashOutput

  datatype OTError = EncryptionProofFailed | DLogProofFailed | BatchTooLarge

  const MAX_BATCH: nat := 65535

  /** The point h reconstructed from the receiver's seed. */
  function SeedPoint(sid: Bytes, seed: Seed): Point {
    Base(TaggedScalar(TAG_OT_BASE_H, [sid, seed]))
  }

  function Message(sid: Bytes, p: Point): HashOutput {
    TaggedHash(TAG_OT_BASE_MSG, [sid, PointBytes(p)])
  }

  /** OTSender::run_phase2 */
  function SenderPhase2(s: Scalar, sid: Bytes, seed: Seed, proof: EncProof): Result<(HashOutput, HashOutput), OTError> {
    var h := SeedPoint(sid, seed);
    if !EncAccepts(proof, sid) || h != proof.proof0.base_h then Err(EncryptionProofFailed)
    else
      var (_, v) := GetUAndV(proof);
      Ok((Message(sid, Times(v, s)), Message(sid, Times(Plus(v, Minus(h)), s))))
  }

  /** What the receiver draws for one instance. */
  datatype ReceiverDraw = ReceiverDraw(r: Scalar, k: Scalar, fake_challenge: Scalar, fake_response: Scalar)

  /** OTReceiver::run_phase1 */
  function ReceiverPhase1(seed: Seed, sid: Bytes, bit: bool, draw: ReceiverDraw): EncProof {
    ProveEnc(sid, SeedPoint(sid, seed), draw.r, bit, draw.k, draw.fake_challenge, draw.fake_response)
  }

  /** OTReceiver::run_phase2_step2 */
  function ReceiverMessage(sid: Bytes, r: Scalar, z: Point): HashOutput {
    Message(sid, Times(z, r))
  }

  /** An honest run never fails and hands the receiver exactly the chosen message. */
  lemma OTCorrect(s: Scalar, sid: Bytes, seed: Seed, bit: bool, draw: ReceiverDraw)
    ensures var sent := SenderPhase2(s, sid, seed, ReceiverPhase1(seed, sid, bit, draw));
      && sent.Ok?
      && ReceiverMessage(sid, draw.r, Base(s)) == if bit then sent.value.1 else sent.value.0
  {
    hide EncAccepts, ProveEnc;
    var h := SeedPoint(sid, seed);
    EncComplete(sid, h, draw.r, bit, draw.k, draw.fake_challenge, draw.fake_response);
    Commute(s, draw.r);
    AddThenSub(draw.r, h.log);
  }

  // Batches

  /** The session id of instance i of a batch. */
  function InstanceId(i: nat, sid: Bytes): Bytes {
    BigEndian(i, 2) + sid
  }

  predicate AllAccepted(s: Scalar, sid: Bytes, seed: Seed, proofs: seq<EncProof>) {
    forall i :: 0 <= i < |proofs| ==> SenderPhase2(s, InstanceId(i, sid), seed, proofs[i]).Ok?
  }

  /** What OTSender::run_phase2_batch returns: all messages for choice 0 and all for choice 1. */
  function SenderBatch(s: Scalar, sid: Bytes, seed: Seed, proofs: seq<EncProof>)
    : (r: Result<(seq<HashOutput>, seq<HashOutput>), OTError>)
    ensures r.Ok? ==> |r.value.0| == |r.value.1| == |proofs|
  {
    if |proofs| > MAX_BATCH then Err(BatchTooLarge)
    else if !AllAccepted(s, sid, seed, proofs) then Err(EncryptionProofFailed)
    else Ok((
      seq(|proofs|, i requires 0 <= i < |proofs| && AllAccepted(s, sid, seed, proofs) =>
        SenderPhase2(s, InstanceId(i, sid), seed, proofs[i]).value.0),
      seq(|proofs|, i requires 0 <= i < |proofs| && AllAccepted(s, sid, seed, proofs) =>
        SenderPhase2(s, InstanceId(i, sid), seed, proofs[i]).value.1)))
  }

  /** OTSender::run_phase2_batch */
  method SenderPhase2Batch(s: Scalar, sid: Bytes, seed: Seed, proofs: seq<EncProof>)
    returns (r: Result<(seq<HashOutput>, seq<HashOutput>), OTError>)
    ensures r == SenderBatch(s, sid, seed, proofs)
  {
    if |proofs| > MAX_BATCH {
      return Err(BatchTooLarge);
    }
    var vec_m0: seq<HashOutput>, vec_m1: seq<HashOutput> := [], [];
    for i := 0 to |proofs|
      invariant |vec_m0| == |vec_m1| == i
      invariant forall k :: 0 <= k < i ==>
        SenderPhase2(s, InstanceId(k, sid), seed, proofs[k]) == Ok((vec_m0[k], vec_m1[k]))
    {
      hide SenderPhase2;
      var m := SenderPhase2(s, InstanceId(i, sid), seed, proofs[i]);
      if m.Err? {
        OneError(s, InstanceId(i, sid), seed, proofs[i]);
        return Err(m.error);
      }
      vec_m0 := vec_m0 + [m.value.0];
      vec_m1 := vec_m1 + [m.value.1];
    }
    hide SenderPhase2;
    assert AllAccepted(s, sid, seed, proofs);
    var expected := SenderBatch(s, sid, seed, proofs);
    assert vec_m0 == expected.value.0 && vec_m1 == expected.value.1;
    return Ok((vec_m0, vec_m1));
  }

  lemma OneError(s: Scalar, sid: Bytes, seed: Seed, proof: EncProof)
    ensures SenderPhase2(s, sid, seed, proof).Err? ==> SenderPhase2(s, sid, seed, proof).error == EncryptionProofFailed
  {
    hide EncAccepts;
  }

  /** What OTReceiver::run_phase1_batch returns for at most MAX_BATCH bits: the encryption proofs. */
  function ReceiverProofs(seed: Seed, sid: Bytes, bits: seq<bool>, draws: seq<ReceiverDraw>): (p: seq<EncProof>)
    requires |draws| == |bits|
    ensures |p| == |bits|
  {
    seq(|bits|, i requires 0 <= i < |bits| => ReceiverPhase1(seed, InstanceId(i, sid), bits[i], draws[i]))
  }

  function Nonces(draws: seq<ReceiverDraw>): (r: seq<Scalar>)
    ensures |r| == |draws|
  {
    seq(|draws|, i requires 0 <= i < |draws| => draws[i].r)
  }

  /** OTReceiver::run_phase1_batch */
  method ReceiverPhase1Batch(seed: Seed, sid: Bytes, bits: seq<bool>, draws: seq<ReceiverDraw>)
    returns (r: Result<(seq<Scalar>, seq<EncProof>), OTError>)
    requires |draws| == |bits|
    ensures r == if |bits| > MAX_BATCH then Err(BatchTooLarge) else Ok((Nonces(draws), ReceiverProofs(seed, sid, bits, draws)))
  {
    hide ReceiverPhase1;
    if |bits| > MAX_BATCH {
      return Err(BatchTooLarge);
    }
    var vec_r: seq<Scalar>, vec_proof: seq<EncProof> := [], [];
    for i := 0 to |bits|
      invariant |vec_r| == |vec_proof| == i
      invariant forall k :: 0 <= k < i ==>
        vec_r[k] == draws[k].r && vec_proof[k] == ReceiverPhase1(seed, InstanceId(k, sid), bits[k], draws[k])
    {
      vec_r := vec_r + [draws[i].r];
      vec_proof := vec_proof + [ReceiverPhase1(seed, InstanceId(i, sid), bits[i], draws[i])];
    }
    assert vec_r == Nonces(draws) && vec_proof == ReceiverProofs(seed, sid, bits, draws);
    return Ok((vec_r, vec_proof));
  }

  /** What OTReceiver::run_phase2_batch returns: the chosen messages. */
  ghost function ReceiverBatch(sid: Bytes, vec_r: seq<Scalar>, dlog_proof: DLogProof): (r: Result<seq<HashOutput>, OTError>)
    ensures r.Ok? ==> |r.value| == |vec_r|
  {
    if !DLogAccepts(dlog_proof, sid) then Err(DLogProofFailed)
    else if |vec_r| > MAX_BATCH then Err(BatchTooLarge)
    else Ok(seq(|vec_r|, i requires 0 <= i < |vec_r| => ReceiverMessage(InstanceId(i, sid), vec_r[i], dlog_proof.point)))
  }

  /** OTReceiver::run_phase2_batch */
  method ReceiverPhase2Batch(sid: Bytes, vec_r: seq<Scalar>, dlog_proof: DLogProof)
    returns (r: Result<seq<HashOutput>, OTError>)
    ensures r == ReceiverBatch(sid, vec_r, dlog_proof)
  {
    hide DLogAccepts;
    var verification := VerifyDLog(dlog_proof, sid);
    if !verification {
      return Err(DLogProofFailed);
    }
    if |vec_r| > MAX_BATCH {
      return Err(BatchTooLarge);
    }
    var vec_mb: seq<HashOutput> := [];
    for i := 0 to |vec_r|
      invariant |vec_mb| == i
      invariant forall k :: 0 <= k < i ==> vec_mb[k] == ReceiverMessage(InstanceId(k, sid), vec_r[k], dlog_proof.point)
    {
      vec_mb := vec_mb + [ReceiverMessage(InstanceId(i, sid), vec_r[i], dlog_proof.point)];
    }
    assert vec_mb == ReceiverBatch(sid, vec_r, dlog_proof).value;
    return Ok(vec_mb);
  }

  /** An honest batch succeeds once the sender's proof of knowledge of s is accepted, and message i of the
      receiver is the one of the sender's two messages i that bit i selects. */
  lemma BatchCorrect(s: Scalar, sid: Bytes, seed: Seed, bits: seq<bool>, draws: seq<ReceiverDraw>, dlog_proof: DLogProof)
    requires |draws| == |bits| <= MAX_BATCH
    requires dlog_proof.point == Base(s) && DLogAccepts(dlog_proof, sid)
    ensures var sent := SenderBatch(s, sid, seed, ReceiverProofs(seed, sid, bits, draws));
      var received := ReceiverBatch(sid, Nonces(draws), dlog_proof);
      && sent.Ok? && received.Ok?
      && forall i :: 0 <= i < |bits| ==> received.value[i] == if bits[i] then sent.value.1[i] else sent.value.0[i]
  {
    hide DLogAccepts, SenderPhase2, ReceiverPhase1, ReceiverMessage;
    var proofs := ReceiverProofs(seed, sid, bits, draws);
    forall i | 0 <= i < |bits|
      ensures SenderPhase2(s, InstanceId(i, sid), seed, proofs[i]).Ok?
      ensures var sent := SenderPhase2(s, InstanceId(i, sid), seed, proofs[i]).value;
        ReceiverMessage(InstanceId(i, sid), draws[i].r, Base(s)) == if bits[i] then sent.1 else sent.0
    {
      OTCorrect(s, InstanceId(i, sid), seed, bits[i], draws[i]);
    }
  }
}
