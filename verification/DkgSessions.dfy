/** The session object of one party of distributed key generation. */
module DkgSessions {
  import opened Sequences
  import opened Outcomes
  import opened PrimeField
  import opened Sums
  import opened Polynomials
  import opened Hashes
  import opened Curve
  import opened Proofs
  import opened Shamir
  import opened Protocols
  import opened ZeroShares
  import opened KeyGenerationSteps
  import opened KeyGeneration
  import opened KeyGenerationFinish

  /** The fields of a session that change. */
  datatype DkgState = DkgState(
    poly_point: Option<Scalar>, proof_commitment: Option<ProofCommitment>, zero_kept_2to3: Option<ZeroKept2>,
    bip_kept_2to3: Option<ChainBody3>, zero_kept_3to4: Option<map<PartyIndex, HashOutput>>, mul_kept_3to4: Option<MulKept>)

  function NewState(): DkgState {
    DkgState(None, None, None, None, None, None)
  }

  datatype Phase2Failure = Refused(abort: Abort) | ProofSearchExhausted

  datatype Output2 = Output2(pc: ProofCommitment, zero: seq<Transmit<HashOutput>>, cc_commitment: HashOutput)

  datatype Output3 = Output3(zero: seq<Transmit<ZeroBody3>>, mul: seq<Transmit<MulBody>>, bip: ChainBody3)

  /** Phase 2 when the proof of knowledge is the given one. */
  function After2(data: SessionData, state: DkgState, poly_fragments: seq<Scalar>, proof: DLogProof, draws: DkgDraws)
    : (DkgState, Result<Output2, Phase2Failure>)
  {
    if state.poly_point.Some? then (state, Err(Refused(Recover(data.party_index, PhaseCalledOutOfOrder))))
    else
      var others := Others(data.parameters.share_count, data.party_index);
      var pc := ProofCommitment(data.party_index, proof, ProofCommitmentHash(proof, data.session_id));
      (state.(poly_point := Some(Sum(poly_fragments)), proof_commitment := Some(pc), zero_kept_2to3 := Some(ZeroKeep2(draws, others)),
              bip_kept_2to3 := Some(ChainBody3(draws.aux_chain_code, draws.cc_salt))),
       Ok(Output2(pc, ZeroTransmit2(draws, data.party_index, others), Commitment(draws.aux_chain_code, draws.cc_salt))))
  }

  function After3(data: SessionData, state: DkgState, draws: DkgDraws): (DkgState, Result<Output3, Abort>) {
    if state.zero_kept_2to3.None? || state.bip_kept_2to3.None? then (state, Err(Recover(data.party_index, PhaseCalledOutOfOrder)))
    else
      var kept := state.zero_kept_2to3.value;
      var others := Others(data.parameters.share_count, data.party_index);
      (state.(zero_kept_2to3 := None, bip_kept_2to3 := None, zero_kept_3to4 := Some(SeedsOf(kept)), mul_kept_3to4 := Some(MulKeep(draws, others))),
       Ok(Output3(ZeroTransmit3(data.party_index, kept, Ascending(kept.Keys, 255)),
                  MulTransmit(draws, data.party_index, data.session_id, others), state.bip_kept_2to3.value)))
  }

  ghost function After4(data: SessionData, state: DkgState, inputs: Inputs4, address_fn: Point -> string)
    : Result<(Party, PublicKeyPackage), Abort>
  {
    if state.poly_point.None? || state.zero_kept_3to4.None? || state.mul_kept_3to4.None? then
      Err(Recover(data.party_index, PhaseCalledOutOfOrder))
    else Phase4Outcome(data, state.poly_point.value, state.zero_kept_3to4.value, state.mul_kept_3to4.value, inputs, address_fn)
  }

  class DkgSession {
    const data: SessionData
    var poly_point: Option<Scalar>
    var proof_commitment: Option<ProofCommitment>
    var zero_kept_2to3: Option<ZeroKept2>
    var bip_kept_2to3: Option<ChainBody3>
    var zero_kept_3to4: Option<map<PartyIndex, HashOutput>>
    var mul_kept_3to4: Option<MulKept>

    function State(): DkgState
      reads this
    {
      DkgState(poly_point, proof_commitment, zero_kept_2to3, bip_kept_2to3, zero_kept_3to4, mul_kept_3to4)
    }

    constructor (parameters: ValidParameters, party_index: PartyIndex, session_id: Bytes)
      ensures data == SessionData(parameters, party_index, session_id) && State() == NewState()
    {
      data := SessionData(parameters, party_index, session_id);
      poly_point, proof_commitment, zero_kept_2to3, bip_kept_2to3, zero_kept_3to4, mul_kept_3to4 := None, None, None, None, None, None;
    }

    /** Phase 1 does not touch the session: it evaluates a fresh polynomial at every party. */
    method Phase1(polynomial: seq<Scalar>) returns (fragments: seq<Scalar>)
      requires |polynomial| == data.parameters.threshold
      ensures fragments == Values(polynomial, Indices(1, data.parameters.share_count))
    {
      fragments := Step2(data.parameters, polynomial);
    }

    method Phase2(poly_fragments: seq<Scalar>, states: seq<Scalar>, challenges: Draws, draws: DkgDraws)
      returns (r: Result<Output2, Phase2Failure>)
      requires |states| == R
      modifies this
      ensures r.Err? ==> State() == old(State())
      ensures old(State()).poly_point.Some? ==> r == Err(Refused(Recover(data.party_index, PhaseCalledOutOfOrder)))
      ensures old(State()).poly_point.None? && r.Err? ==> r.error == ProofSearchExhausted
      ensures r.Ok? ==>
        && (State(), r) == After2(data, old(State()), poly_fragments, r.value.pc.proof, draws)
        && r.value.pc.proof.point == Base(Sum(poly_fragments))
        && (DLogAccepts(r.value.pc.proof, data.session_id) <==> NoRepeats(Points(states)))
    {
      hide DLogAccepts, ProofCommitmentHash, Points;
      if poly_point.Some? {
        return Err(Refused(Recover(data.party_index, PhaseCalledOutOfOrder)));
      }
      var outcome := KeyGeneration.Phase2(data, poly_fragments, states, challenges, draws);
      if outcome.Err? {
        return Err(ProofSearchExhausted);
      }
      var (share, pc, zero_keep, zero_transmit, bip_keep, cc_commitment) := outcome.value;
      poly_point := Some(share);
      proof_commitment := Some(pc);
      zero_kept_2to3 := Some(zero_keep);
      bip_kept_2to3 := Some(bip_keep);
      return Ok(Output2(pc, zero_transmit, cc_commitment));
    }

    method Phase3(draws: DkgDraws) returns (r: Result<Output3, Abort>)
      modifies this
      ensures (State(), r) == After3(data, old(State()), draws)
    {
      hide MulKeep, MulTransmit, ZeroTransmit3;
      if zero_kept_2to3.None? || bip_kept_2to3.None? {
        return Err(Recover(data.party_index, PhaseCalledOutOfOrder));
      }
      var zero_keep, zero_transmit, mul_keep, mul_transmit, bip_broadcast :=
        KeyGeneration.Phase3(data, zero_kept_2to3.value, bip_kept_2to3.value, draws);
      zero_kept_2to3 := None;
      bip_kept_2to3 := None;
      zero_kept_3to4 := Some(zero_keep);
      mul_kept_3to4 := Some(mul_keep);
      return Ok(Output3(zero_transmit, mul_transmit, bip_broadcast));
    }

    method Phase4(inputs: Inputs4, address_fn: Point -> string) returns (r: Result<(Party, PublicKeyPackage), Abort>)
      ensures r == After4(data, State(), inputs, address_fn)
    {
      hide Phase4Outcome;
      if poly_point.None? || zero_kept_3to4.None? || mul_kept_3to4.None? {
        return Err(Recover(data.party_index, PhaseCalledOutOfOrder));
      }
      r := KeyGenerationFinish.Phase4(data, poly_point.value, zero_kept_3to4.value, mul_kept_3to4.value, inputs, address_fn);
    }
  }

  /** What a refused call answers. */
  function OutOfOrder(data: SessionData): Abort {
    Recover(data.party_index, PhaseCalledOutOfOrder)
  }

  /** Phase 2 succeeds once: it keeps the share, the seeds and the chain code part, and refuses any further call. */
  lemma SecondPhaseOnce(data: SessionData, state: DkgState, poly_fragments: seq<Scalar>, proof: DLogProof, draws: DkgDraws,
                        poly_fragments': seq<Scalar>, proof': DLogProof, draws': DkgDraws)
    ensures var (after, r) := After2(data, state, poly_fragments, proof, draws);
      && (r.Ok? <==> state.poly_point.None?)
      && (r.Err? ==> after == state && r.error == Refused(OutOfOrder(data)))
      && after.poly_point == (if r.Ok? then Some(Sum(poly_fragments)) else state.poly_point)
      && (r.Ok? ==> after.zero_kept_2to3.Some? && after.bip_kept_2to3 == Some(ChainBody3(draws.aux_chain_code, draws.cc_salt)))
      && after.zero_kept_3to4 == state.zero_kept_3to4 && after.mul_kept_3to4 == state.mul_kept_3to4
      && After2(data, after, poly_fragments', proof', draws') == (after, Err(Refused(OutOfOrder(data))))
  {
    hide Sum;
  }

  /** Phase 3 succeeds only on what phase 2 kept, consumes it, and then refuses until phase 2 has been called again, which it
      never allows. */
  lemma ThirdPhaseOnce(data: SessionData, state: DkgState, draws: DkgDraws, draws': DkgDraws)
    ensures var (after, r) := After3(data, state, draws);
      && (r.Ok? <==> state.zero_kept_2to3.Some? && state.bip_kept_2to3.Some?)
      && (r.Err? ==> after == state && r.error == OutOfOrder(data))
      && (r.Ok? ==>
           && r.value.bip == state.bip_kept_2to3.value
           && after.zero_kept_3to4.Some? && after.zero_kept_3to4.value.Keys == state.zero_kept_2to3.value.Keys
           && (forall j :: j in state.zero_kept_2to3.value ==>
                after.zero_kept_3to4.value[j] == state.zero_kept_2to3.value[j].seed)
           && after.mul_kept_3to4.Some? && after.zero_kept_2to3.None? && after.bip_kept_2to3.None?
           && After3(data, after, draws') == (after, Err(OutOfOrder(data))))
      && after.poly_point == state.poly_point && after.proof_commitment == state.proof_commitment
  {
    hide MulTransmit, MulKeep, ZeroTransmit3;
  }

  /** Phase 4 is refused before phases 2 and 3, and otherwise runs on what they kept. */
  lemma FourthPhaseLast(data: SessionData, state: DkgState, inputs: Inputs4, address_fn: Point -> string)
    ensures After4(data, state, inputs, address_fn)
      == if state.poly_point.Some? && state.zero_kept_3to4.Some? && state.mul_kept_3to4.Some? then
           Phase4Outcome(data, state.poly_point.value, state.zero_kept_3to4.value, state.mul_kept_3to4.value, inputs, address_fn)
         else
           Err(OutOfOrder(data))
  {
    hide Phase4Outcome;
  }
}
