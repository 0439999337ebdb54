/** The phases of distributed key generation as one party runs them. */
module KeyGeneration {
  import opened Sequences
  import opened Outcomes
  import opened PrimeField
  import opened Sums
  import opened Polynomials
  import opened Hashes
  import opened PackedBits
  import opened Curve
  import opened OracleTags
  import opened Proofs
  import opened BaseOT
  import opened Transpose
  import opened OTExtension
  import opened Multiplication
  import opened Protocols
  import opened MessageRouting
  import opened Shamir
  import opened ZeroShares
  import opened KeyGenerationSteps

  datatype SessionData = SessionData(parameters: ValidParameters, party_index: PartyIndex, session_id: Bytes)

  datatype ZeroBody3 = ZeroBody3(seed: HashOutput, salt: Bytes)

  datatype MulBody = MulBody(dlog_proof: DLogProof, nonce: Scalar, enc_proofs: seq<EncProof>, seed: Seed)

  datatype KeepMul = KeepMul(ot_sender: Scalar, nonce: Scalar, ot_seed: Seed, correlation: seq<bool>, vec_r: seq<Scalar>)

  datatype ChainBody3 = ChainBody3(aux_chain_code: ChainCode, cc_salt: Bytes)

  /** What a party draws for the multiplication with one counterparty: as receiver the secret s with its proof
      and the nonce, as sender the seed, the correlation and what the encryption proofs need. */
  datatype MulInitDraws = MulInitDraws(
    s: Scalar, dlog_proof: DLogProof, nonce: Scalar, ot_seed: Seed, correlation: seq<bool>, proofs: seq<ReceiverDraw>)

  predicate IsMulInitDraws(d: MulInitDraws) {
    |d.correlation| == |d.proofs| == KAPPA
  }

  type ValidMulInitDraws = d: MulInitDraws | IsMulInitDraws(d)
    witness MulInitDraws(0, DLogProof(IDENTITY, [], []), 0, seq(SECURITY, _ => 0), seq(KAPPA, _ => false),
                         seq(KAPPA, _ => ReceiverDraw(0, 0, 0, 0)))

  datatype DkgDraws = DkgDraws(
    seeds: PartyIndex -> HashOutput, salts: PartyIndex -> Bytes, aux_chain_code: ChainCode, cc_salt: Bytes,
    mul: PartyIndex -> ValidMulInitDraws)

  /** The parties 1 to n without me, in increasing order. */
  function Others(n: nat, me: PartyIndex): (o: seq<PartyIndex>)
    requires n <= 255
    ensures forall j: PartyIndex :: j in o <==> j <= n && j != me
    ensures forall k, m :: 0 <= k < m < |o| ==> o[k] < o[m]
  {
    if n == 0 then []
    else
      var rest := Others(n - 1, me);
      assert forall k :: 0 <= k < |rest| ==> rest[k] in rest;
      if n == me then rest else rest + [n]
  }

  lemma OthersStep(i: PartyIndex, me: PartyIndex)
    ensures Others(i, me) == if i == me then Others(i - 1, me) else Others(i - 1, me) + [i]
  {}

  // Phase 2, without step 3

  type ZeroKept2 = map<PartyIndex, ZeroBody3>

  function ZeroKeep2(draws: DkgDraws, others: seq<PartyIndex>): ZeroKept2 {
    map j | j in others :: ZeroBody3(draws.seeds(j), draws.salts(j))
  }

  function ZeroMessage2(draws: DkgDraws, me: PartyIndex, j: PartyIndex): Transmit<HashOutput> {
    Transmit(PartiesMessage(me, j), Commitment(draws.seeds(j), draws.salts(j)))
  }

  function ZeroTransmit2(draws: DkgDraws, me: PartyIndex, others: seq<PartyIndex>): seq<Transmit<HashOutput>> {
    seq(|others|, k requires 0 <= k < |others| => ZeroMessage2(draws, me, others[k]))
  }

  lemma ZeroStep(draws: DkgDraws, me: PartyIndex, others: seq<PartyIndex>, i: PartyIndex)
    ensures ZeroKeep2(draws, others + [i]) == ZeroKeep2(draws, others)[i := ZeroBody3(draws.seeds(i), draws.salts(i))]
    ensures ZeroTransmit2(draws, me, others + [i]) == ZeroTransmit2(draws, me, others) + [ZeroMessage2(draws, me, i)]
  {
    hide Commitment;
  }

  method CommitSeeds(n: nat, me: PartyIndex, draws: DkgDraws)
    returns (zero_keep: ZeroKept2, zero_transmit: seq<Transmit<HashOutput>>)
    requires n <= 255
    ensures zero_keep == ZeroKeep2(draws, Others(n, me)) && zero_transmit == ZeroTransmit2(draws, me, Others(n, me))
  {
    zero_keep, zero_transmit := map[], [];
    assert Others(0, me) == [];
    hide Others, ZeroKeep2, ZeroTransmit2, Commitment;
    for i := 1 to n + 1
      invariant zero_keep == ZeroKeep2(draws, Others(i - 1, me))
      invariant zero_transmit == ZeroTransmit2(draws, me, Others(i - 1, me))
    {
      OthersStep(i, me);
      if i == me {
        continue;
      }
      ZeroStep(draws, me, Others(i - 1, me), i);
      var seed, salt := draws.seeds(i), draws.salts(i);
      zero_keep := zero_keep[i := ZeroBody3(seed, salt)];
      zero_transmit := zero_transmit + [Transmit(PartiesMessage(me, i), Commitment(seed, salt))];
    }
  }

  /** Phase 2: the share is the sum of the fragments; the proof of knowledge is committed to. */
  method Phase2(data: SessionData, poly_fragments: seq<Scalar>, states: seq<Scalar>, challenges: Draws, draws: DkgDraws)
    returns (r: Result<(Scalar, ProofCommitment, ZeroKept2, seq<Transmit<HashOutput>>, ChainBody3, HashOutput), ProofSearch>)
    requires |states| == R
    ensures r.Ok? ==>
      var (poly_point, pc, zero_keep, zero_transmit, bip_keep, cc_commitment) := r.value;
      var others := Others(data.parameters.share_count, data.party_index);
      && poly_point == Sum(poly_fragments)
      && pc.index == data.party_index && pc.commitment == ProofCommitmentHash(pc.proof, data.session_id)
      && pc.proof.point == Base(poly_point) && pc.proof.rand_commitments == Points(states)
      && (DLogAccepts(pc.proof, data.session_id) <==> NoRepeats(pc.proof.rand_commitments))
      && zero_keep == ZeroKeep2(draws, others) && zero_transmit == ZeroTransmit2(draws, data.party_index, others)
      && bip_keep == ChainBody3(draws.aux_chain_code, draws.cc_salt)
      && cc_commitment == Commitment(draws.aux_chain_code, draws.cc_salt)
  {
    hide DLogAccepts, ProofCommitmentHash, FoundPair, Findable;
    var poly_point := Step3(poly_fragments);
    var proof := ProveDLog(poly_point, data.session_id, states, challenges);
    if proof.Err? {
      return Err(proof.error);
    }
    ProvedIsAccepted(poly_point, data.session_id, states, challenges, proof.value);
    var pc := ProofCommitment(data.party_index, proof.value, ProofCommitmentHash(proof.value, data.session_id));
    var zero_keep, zero_transmit := CommitSeeds(data.parameters.share_count, data.party_index, draws);
    return Ok((poly_point, pc, zero_keep, zero_transmit, ChainBody3(draws.aux_chain_code, draws.cc_salt),
               Commitment(draws.aux_chain_code, draws.cc_salt)));
  }

  // Phase 3

  /** The session id of the multiplication set-up of one ordered pair. */
  function MulInitSid(receiver: PartyIndex, sender: PartyIndex, sid: Bytes): Bytes {
    Ascii("Multiplication protocol") + BigEndian(receiver, 1) + BigEndian(sender, 1) + sid
  }

  function MulKeepFor(d: ValidMulInitDraws): KeepMul {
    KeepMul(d.s, d.nonce, d.ot_seed, d.correlation, Nonces(d.proofs))
  }

  function MulMessage(d: ValidMulInitDraws, me: PartyIndex, j: PartyIndex, sid: Bytes): Transmit<MulBody> {
    Transmit(PartiesMessage(me, j),
             MulBody(d.dlog_proof, d.nonce, ReceiverProofs(d.ot_seed, MulInitSid(j, me, sid), d.correlation, d.proofs), d.ot_seed))
  }

  type MulKept = map<PartyIndex, KeepMul>

  function MulKeep(draws: DkgDraws, others: seq<PartyIndex>): MulKept {
    map j | j in others :: MulKeepFor(draws.mul(j))
  }

  function MulTransmit(draws: DkgDraws, me: PartyIndex, sid: Bytes, others: seq<PartyIndex>): seq<Transmit<MulBody>> {
    seq(|others|, k requires 0 <= k < |others| => MulMessage(draws.mul(others[k]), me, others[k], sid))
  }

  lemma MulStep(draws: DkgDraws, me: PartyIndex, sid: Bytes, others: seq<PartyIndex>, i: PartyIndex)
    ensures MulKeep(draws, others + [i]) == MulKeep(draws, others)[i := MulKeepFor(draws.mul(i))]
    ensures MulTransmit(draws, me, sid, others + [i]) == MulTransmit(draws, me, sid, others) + [MulMessage(draws.mul(i), me, i, sid)]
  {
    hide MulKeepFor, MulMessage;
  }

  method PrepareMultiplication(data: SessionData, draws: DkgDraws)
    returns (mul_keep: MulKept, mul_transmit: seq<Transmit<MulBody>>)
    ensures mul_keep == MulKeep(draws, Others(data.parameters.share_count, data.party_index))
    ensures mul_transmit == MulTransmit(draws, data.party_index, data.session_id, Others(data.parameters.share_count, data.party_index))
  {
    var me := data.party_index;
    mul_keep, mul_transmit := map[], [];
    assert Others(0, me) == [];
    hide MulMessage, MulKeepFor, Others, MulKeep, MulTransmit;
    for i := 1 to data.parameters.share_count + 1
      invariant mul_keep == MulKeep(draws, Others(i - 1, me))
      invariant mul_transmit == MulTransmit(draws, me, data.session_id, Others(i - 1, me))
    {
      OthersStep(i, me);
      if i == me {
        continue;
      }
      MulStep(draws, me, data.session_id, Others(i - 1, me), i);
      var keep, transmit := PreparePair(draws.mul(i), me, i, data.session_id);
      mul_keep := mul_keep[i := keep];
      mul_transmit := mul_transmit + [transmit];
    }
  }

  method PreparePair(d: ValidMulInitDraws, me: PartyIndex, i: PartyIndex, sid: Bytes)
    returns (keep: KeepMul, transmit: Transmit<MulBody>)
    ensures keep == MulKeepFor(d) && transmit == MulMessage(d, me, i, sid)
  {
    hide ReceiverProofs, MulInitSid, Nonces;
    var batch := ReceiverPhase1Batch(d.ot_seed, MulInitSid(i, me, sid), d.correlation, d.proofs);
    var (vec_r, enc_proofs) := batch.value;
    keep := KeepMul(d.s, d.nonce, d.ot_seed, d.correlation, vec_r);
    transmit := Transmit(PartiesMessage(me, i), MulBody(d.dlog_proof, d.nonce, enc_proofs, d.ot_seed));
  }

  /** The keys in increasing order, up to a bound. */
  function Ascending(keys: set<PartyIndex>, bound: nat): (s: seq<PartyIndex>)
    requires bound <= 255
    ensures forall j: PartyIndex :: j in s <==> j in keys && j <= bound
  {
    if bound == 0 then []
    else if bound in keys then Ascending(keys, bound - 1) + [bound]
    else Ascending(keys, bound - 1)
  }

  function SeedsOf(kept: ZeroKept2): map<PartyIndex, HashOutput> {
    map j | j in kept :: kept[j].seed
  }

  function ZeroTransmit3(me: PartyIndex, kept: ZeroKept2, targets: seq<PartyIndex>): seq<Transmit<ZeroBody3>>
    requires forall j :: j in targets ==> j in kept
  {
    seq(|targets|, k requires 0 <= k < |targets| => (assert targets[k] in targets; Transmit(PartiesMessage(me, targets[k]), kept[targets[k]])))
  }

  /** Phase 3: the seeds are opened, and the multiplications set up. */
  method Phase3(data: SessionData, zero_kept: ZeroKept2, bip_kept: ChainBody3, draws: DkgDraws)
    returns (zero_keep: map<PartyIndex, HashOutput>, zero_transmit: seq<Transmit<ZeroBody3>>, mul_keep: MulKept,
             mul_transmit: seq<Transmit<MulBody>>, bip_broadcast: ChainBody3)
    ensures zero_keep == SeedsOf(zero_kept)
    ensures zero_transmit == ZeroTransmit3(data.party_index, zero_kept, Ascending(zero_kept.Keys, 255))
    ensures mul_keep == MulKeep(draws, Others(data.parameters.share_count, data.party_index))
    ensures mul_transmit == MulTransmit(draws, data.party_index, data.session_id, Others(data.parameters.share_count, data.party_index))
    ensures bip_broadcast == bip_kept
  {
    hide MulKeep, MulTransmit;
    zero_keep, zero_transmit := map[], [];
    for target_party := 1 to 256
      invariant zero_transmit == ZeroTransmit3(data.party_index, zero_kept, Ascending(zero_kept.Keys, target_party - 1))
      invariant forall j :: j in zero_keep <==> j in zero_kept && j < target_party
      invariant forall j :: j in zero_keep ==> zero_keep[j] == zero_kept[j].seed
    {
      if target_party in zero_kept {
        zero_keep := zero_keep[target_party := zero_kept[target_party].seed];
        zero_transmit := zero_transmit + [Transmit(PartiesMessage(data.party_index, target_party), zero_kept[target_party])];
      }
    }
    assert zero_keep == SeedsOf(zero_kept);
    mul_keep, mul_transmit := PrepareMultiplication(data, draws);
    bip_broadcast := bip_kept;
  }
}
