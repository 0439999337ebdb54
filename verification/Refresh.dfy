/** Refreshing key shares: the complete protocol and the faster one, as one party runs them. */
module Refresh {
  import opened Sequences
  import opened Outcomes
  import opened PrimeField
  import opened Sums
  import opened Polynomials
  import opened Hashes
  import opened Curve
  import opened Proofs
  import opened Multiplication
  import opened Protocols
  import opened Shamir
  import opened ZeroShares
  import opened KeyGenerationSteps
  import opened KeyGeneration
  import opened KeyGenerationFinish
  import opened FastRefresh

  /** The session data under which a refresh reruns the steps of key generation. */
  function RefreshData(party: Party, refresh_sid: Bytes): SessionData {
    SessionData(party.parameters, party.party_index, refresh_sid)
  }

  /** refresh_phase1 and refresh_complete_phase1: the constant term is zero. */
  method RefreshPhase1(party: Party, coefficients: seq<Scalar>) returns (points: seq<Scalar>)
    requires |coefficients| == party.parameters.threshold - 1
    ensures points == Values([0] + coefficients, Indices(1, party.parameters.share_count))
  {
    var secret_polynomial: seq<Scalar> := [0];
    for i := 1 to party.parameters.threshold
      invariant secret_polynomial == [0] + coefficients[..i - 1]
    {
      secret_polynomial := secret_polynomial + [coefficients[i - 1]];
    }
    assert secret_polynomial == [0] + coefficients;
    points := Step2(party.parameters, secret_polynomial);
  }

  /** refresh_phase2 and refresh_complete_phase2: the correction value is the sum of the fragments. */
  method RefreshPhase2(party: Party, refresh_sid: Bytes, poly_fragments: seq<Scalar>, states: seq<Scalar>,
                       challenges: Draws, draws: DkgDraws)
    returns (r: Result<(Scalar, ProofCommitment, ZeroKept2, seq<Transmit<HashOutput>>), ProofSearch>)
    requires |states| == R
    ensures r.Ok? ==>
      var (correction_value, pc, zero_keep, zero_transmit) := r.value;
      var others := Others(party.parameters.share_count, party.party_index);
      && correction_value == Sum(poly_fragments)
      && pc.index == party.party_index && pc.commitment == ProofCommitmentHash(pc.proof, refresh_sid)
      && pc.proof.point == Base(correction_value)
      && (DLogAccepts(pc.proof, refresh_sid) <==> NoRepeats(pc.proof.rand_commitments))
      && zero_keep == ZeroKeep2(draws, others) && zero_transmit == ZeroTransmit2(draws, party.party_index, others)
  {
    hide DLogAccepts, ProofCommitmentHash;
    var outcome := KeyGeneration.Phase2(RefreshData(party, refresh_sid), poly_fragments, states, challenges, draws);
    if outcome.Err? {
      return Err(outcome.error);
    }
    return Ok((outcome.value.0, outcome.value.1, outcome.value.2, outcome.value.3));
  }

  /** The party after a refresh: only the share, the seeds, the multiplication state and the session id change. */
  function Refreshed(party: Party, refresh_sid: Bytes, correction_value: Scalar, zero_share: ZeroShare,
                     receivers: Receivers, senders: MulSenders): Party {
    party.(session_id := refresh_sid, poly_point := Add(party.poly_point, correction_value), zero_share := zero_share,
           mul_receivers := receivers, mul_senders := senders,
           derivation_data := party.derivation_data.(poly_point := Add(party.poly_point, correction_value), pk := party.pk))
  }

  /** The key part that both refreshes share: the committed points must interpolate to the identity. */
  ghost function KeyCheck(party: Party, refresh_sid: Bytes, pcs: seq<ProofCommitment>): Option<Abort> {
    var key := Step5Outcome(party.parameters, party.party_index, refresh_sid, pcs);
    if key.Err? then Some(key.error)
    else if key.value.0 != IDENTITY then Some(Recover(party.party_index, PolynomialInconsistency))
    else None
  }

  method CheckKey(party: Party, refresh_sid: Bytes, pcs: seq<ProofCommitment>) returns (fault: Option<Abort>)
    ensures fault == KeyCheck(party, refresh_sid, pcs)
  {
    hide Step5Outcome;
    var key := Step5(party.parameters, party.party_index, refresh_sid, pcs);
    if key.Err? {
      return Some(key.error);
    }
    if key.value.0 != IDENTITY {
      return Some(Recover(party.party_index, PolynomialInconsistency));
    }
    return None;
  }

  // Complete refresh

  datatype CompleteInputs = CompleteInputs(
    pcs: seq<ProofCommitment>, zero2: seq<Transmit<HashOutput>>, zero3: seq<Transmit<ZeroBody3>>, mul: seq<Transmit<MulBody>>)

  ghost function CompleteOutcome(party: Party, refresh_sid: Bytes, correction_value: Scalar,
                                 zero_kept: map<PartyIndex, HashOutput>, mul_kept: MulKept, inputs: CompleteInputs)
    : Result<Party, Abort>
  {
    var fault := KeyCheck(party, refresh_sid, inputs.pcs);
    if fault.Some? then Err(fault.value)
    else
      var zero_share := ZeroOutcome(party.party_index, zero_kept, inputs.zero2, inputs.zero3);
      if zero_share.Err? then Err(zero_share.error)
      else
        var mul := MulOutcome(RefreshData(party, refresh_sid), mul_kept, inputs.mul);
        if mul.Err? then Err(mul.error)
        else Ok(Refreshed(party, refresh_sid, correction_value, zero_share.value, mul.value.0, mul.value.1))
  }

  /** refresh_complete_phase4 */
  method RefreshCompletePhase4(party: Party, refresh_sid: Bytes, correction_value: Scalar, zero_kept: map<PartyIndex, HashOutput>,
                               mul_kept: MulKept, inputs: CompleteInputs) returns (r: Result<Party, Abort>)
    ensures r == CompleteOutcome(party, refresh_sid, correction_value, zero_kept, mul_kept, inputs)
  {
    hide KeyCheck, ZeroOutcome, MulOutcome;
    var fault := CheckKey(party, refresh_sid, inputs.pcs);
    if fault.Some? {
      return Err(fault.value);
    }
    var zero_share := FinishZeroShares(party.party_index, zero_kept, inputs.zero2, inputs.zero3);
    if zero_share.Err? {
      return Err(zero_share.error);
    }
    var mul := FinishMultiplication(RefreshData(party, refresh_sid), mul_kept, inputs.mul);
    if mul.Err? {
      return Err(mul.error);
    }
    return Ok(Refreshed(party, refresh_sid, correction_value, zero_share.value, mul.value.0, mul.value.1));
  }

  // Fast refresh

  datatype FastInputs = FastInputs(pcs: seq<ProofCommitment>, zero2: seq<Transmit<HashOutput>>, zero3: seq<Transmit<ZeroBody3>>)

  /** What the fast refresh makes of the multiplication state for one counterparty. */
  function FastEnds(party: Party, refresh_sid: Bytes, pair: SeedPair): Result<(MulSender, MulReceiver), Abort> {
    var me, them := party.party_index, pair.index_counterparty;
    if them !in party.mul_senders || them !in party.mul_receivers then Err(Recover(me, MissingMulState(them)))
    else if !Refreshable(party.mul_senders[them], party.mul_receivers[them]) then Err(Recover(me, IndexPanic))
    else Ok(RefreshedEnds(party.mul_senders[them], party.mul_receivers[them], refresh_sid, me, them, pair.seed))
  }

  function FastLoop(party: Party, refresh_sid: Bytes, seeds: seq<SeedPair>, receivers: Receivers, senders: MulSenders)
    : Result<(Receivers, MulSenders), Abort>
  {
    if seeds == [] then Ok((receivers, senders))
    else
      var ends := FastEnds(party, refresh_sid, seeds[0]);
      if ends.Err? then Err(ends.error)
      else FastLoop(party, refresh_sid, seeds[1..], receivers[seeds[0].index_counterparty := ends.value.1],
                    senders[seeds[0].index_counterparty := ends.value.0])
  }

  ghost function FastOutcome(party: Party, refresh_sid: Bytes, correction_value: Scalar,
                             zero_kept: map<PartyIndex, HashOutput>, inputs: FastInputs)
    : Result<Party, Abort>
  {
    var fault := KeyCheck(party, refresh_sid, inputs.pcs);
    if fault.Some? then Err(fault.value)
    else
      var zero_share := ZeroOutcome(party.party_index, zero_kept, inputs.zero2, inputs.zero3);
      if zero_share.Err? then Err(zero_share.error)
      else
        var mul := FastLoop(party, refresh_sid, zero_share.value.seeds, map[], map[]);
        if mul.Err? then Err(mul.error)
        else Ok(Refreshed(party, refresh_sid, correction_value, zero_share.value, mul.value.0, mul.value.1))
  }

  method RefreshPair(party: Party, refresh_sid: Bytes, pair: SeedPair) returns (r: Result<(MulSender, MulReceiver), Abort>)
    ensures r == FastEnds(party, refresh_sid, pair)
  {
    hide RefreshedEnds, Refreshable;
    var me, them := party.party_index, pair.index_counterparty;
    if them !in party.mul_senders || them !in party.mul_receivers {
      return Err(Recover(me, MissingMulState(them)));
    }
    if !Refreshable(party.mul_senders[them], party.mul_receivers[them]) {
      return Err(Recover(me, IndexPanic));
    }
    var new_sender, new_receiver := RefreshEnds(party.mul_senders[them], party.mul_receivers[them], refresh_sid, me, them, pair.seed);
    return Ok((new_sender, new_receiver));
  }

  /** refresh_phase4 */
  method RefreshPhase4(party: Party, refresh_sid: Bytes, correction_value: Scalar, zero_kept: map<PartyIndex, HashOutput>,
                       inputs: FastInputs)
    returns (r: Result<Party, Abort>)
    ensures r == FastOutcome(party, refresh_sid, correction_value, zero_kept, inputs)
  {
    hide KeyCheck, ZeroOutcome, FastEnds;
    var fault := CheckKey(party, refresh_sid, inputs.pcs);
    if fault.Some? {
      return Err(fault.value);
    }
    var zero_share := FinishZeroShares(party.party_index, zero_kept, inputs.zero2, inputs.zero3);
    if zero_share.Err? {
      return Err(zero_share.error);
    }
    var seeds := zero_share.value.seeds;
    var mul_receivers: Receivers, mul_senders: MulSenders := map[], map[];
    for i := 0 to |seeds|
      invariant FastLoop(party, refresh_sid, seeds, map[], map[]) == FastLoop(party, refresh_sid, seeds[i..], mul_receivers, mul_senders)
    {
      assert seeds[i..][0] == seeds[i] && seeds[i..][1..] == seeds[i + 1..];
      var ends := RefreshPair(party, refresh_sid, seeds[i]);
      if ends.Err? {
        return Err(ends.error);
      }
      mul_receivers := mul_receivers[seeds[i].index_counterparty := ends.value.1];
      mul_senders := mul_senders[seeds[i].index_counterparty := ends.value.0];
    }
    return Ok(Refreshed(party, refresh_sid, correction_value, zero_share.value, mul_receivers, mul_senders));
  }

  // What acceptance says about the key

  /** The party accepted pcs, in which every party's point is its correction value in the exponent. */
  ghost predicate KeyAccepted(party: Party, refresh_sid: Bytes, pcs: seq<ProofCommitment>, corrections: PartyIndex -> Scalar) {
    && KeyCheck(party, refresh_sid, pcs).None?
    && forall j: PartyIndex :: j <= party.parameters.share_count ==>
         j in Committed(pcs, map[]) ==> Committed(pcs, map[])[j] == Base(corrections(j))
  }

  /** q has t coefficients, q(0) = 0, and q(j) is the correction of party j. */
  ghost predicate ZeroSharing(q: seq<Scalar>, t: nat, n: nat, corrections: PartyIndex -> Scalar) {
    |q| == t && Eval(q, 0) == 0 && forall j: PartyIndex :: j <= n ==> corrections(j) == Eval(q, j)
  }

  /** Whatever polynomials the dealers used: acceptance by one party means that the corrections are a sharing of zero. */
  lemma AcceptanceSharesZero(party: Party, refresh_sid: Bytes, pcs: seq<ProofCommitment>, corrections: PartyIndex -> Scalar)
    requires KeyAccepted(party, refresh_sid, pcs, corrections)
    ensures exists q: seq<Scalar> :: ZeroSharing(q, party.parameters.threshold, party.parameters.share_count, corrections)
  {
    hide Step5Outcome, ProofAccepted, Committed, Eval;
    var t, n := party.parameters.threshold, party.parameters.share_count;
    var committed := Committed(pcs, map[]);
    Step5Decides(party.parameters, party.party_index, refresh_sid, pcs);
    var q: seq<Scalar> :| |q| == t && Interpolated(committed, n, q);
    assert Base(Eval(q, 0)) == IDENTITY;
    forall j: PartyIndex | j <= n ensures corrections(j) == Eval(q, j) {
      assert committed[j] == Base(Eval(q, j));
    }
    assert ZeroSharing(q, t, n, corrections);
  }
}
