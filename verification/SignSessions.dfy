/** The session object of one signer. */
module SignSessions {
  import opened Outcomes
  import opened PrimeField
  import opened Curve
  import opened Protocols
  import opened Ecdsa
  import opened Signing

  datatype EcdsaSignature = EcdsaSignature(r: nat, s: Scalar, recovery_id: nat)

  /** The fields of a session that change. */
  datatype SessionState = SessionState(
    phase1_to_2: Option<(UniqueKeep1to2, Kept1)>, phase2_to_3: Option<(UniqueKeep2to3, Kept2)>, x_coord: Option<nat>)

  /** What SignSession::new leaves behind. */
  ghost function Started(party: Party, data: SignData, draws: SignDraws): Result<(SessionState, seq<TransmitPhase1to2>), Abort> {
    var r := Phase1Outcome(party, data, draws);
    if r.Err? then Err(r.error)
    else Ok((SessionState(Some((r.value.0, r.value.1)), None, None), r.value.2))
  }

  /** Phase 2 takes what phase 1 left; a failure leaves nothing behind. */
  ghost function After2(party: Party, data: SignData, draws: SignDraws, state: SessionState, received: seq<TransmitPhase1to2>)
    : (SessionState, Result<seq<TransmitPhase2to3>, Abort>)
  {
    if state.phase1_to_2.None? then (state, Err(Recover(party.party_index, PhaseCalledOutOfOrder)))
    else
      var (unique, kept) := state.phase1_to_2.value;
      var r := Phase2Outcome(party, data, unique, kept, draws, received);
      if r.Err? then (state.(phase1_to_2 := None), Err(r.error))
      else (state.(phase1_to_2 := None, phase2_to_3 := Some((r.value.0, r.value.1))), Ok(r.value.2))
  }

  function After3(party: Party, data: SignData, state: SessionState, received: seq<TransmitPhase2to3>)
    : (SessionState, Result<Broadcast3to4, Abort>)
  {
    if state.phase2_to_3.None? then (state, Err(Recover(party.party_index, PhaseCalledOutOfOrder)))
    else
      var (unique, kept) := state.phase2_to_3.value;
      var r := Phase3Outcome(party, data, unique, kept, received);
      if r.Err? then (state.(phase2_to_3 := None), Err(r.error))
      else (state.(phase2_to_3 := None, x_coord := Some(r.value.0)), Ok(r.value.1))
  }

  function After4(party: Party, data: SignData, state: SessionState, received: seq<Broadcast3to4>, normalize: bool)
    : (SessionState, Result<EcdsaSignature, Abort>)
  {
    if state.x_coord.None? then (state, Err(Recover(party.party_index, PhaseCalledOutOfOrder)))
    else
      var x_coord := state.x_coord.value;
      var r := Phase4Outcome(party.party_index, party.pk, data.message_hash, x_coord, received, normalize);
      (state.(x_coord := None),
       if r.Err? then Err(r.error) else Ok(EcdsaSignature(x_coord, r.value.0, r.value.1)))
  }

  class SignSession {
    const party: Party
    const data: SignData
    var phase1_to_2: Option<(UniqueKeep1to2, Kept1)>
    var phase2_to_3: Option<(UniqueKeep2to3, Kept2)>
    var x_coord: Option<nat>

    function State(): SessionState
      reads this
    {
      SessionState(phase1_to_2, phase2_to_3, x_coord)
    }

    constructor (party: Party, data: SignData, unique_kept: UniqueKeep1to2, kept: Kept1)
      ensures this.party == party && this.data == data
      ensures State() == SessionState(Some((unique_kept, kept)), None, None)
    {
      this.party := party;
      this.data := data;
      this.phase1_to_2 := Some((unique_kept, kept));
      this.phase2_to_3 := None;
      this.x_coord := None;
    }

    /** SignSession::new */
    static method Start(party: Party, data: SignData, draws: SignDraws)
      returns (r: Result<(SignSession, seq<TransmitPhase1to2>), Abort>)
      ensures var started := Started(party, data, draws);
        if started.Err? then r == Err(started.error)
        else
          && r.Ok? && fresh(r.value.0) && r.value.0.party == party && r.value.0.data == data
          && r.value.0.State() == started.value.0 && r.value.1 == started.value.1
    {
      hide Phase1Outcome;
      var first := SignPhase1(party, data, draws);
      if first.Err? {
        return Err(first.error);
      }
      var session := new SignSession(party, data, first.value.0, first.value.1);
      return Ok((session, first.value.2));
    }

    method Phase2(draws: SignDraws, received: seq<TransmitPhase1to2>) returns (r: Result<seq<TransmitPhase2to3>, Abort>)
      modifies this
      ensures (State(), r) == After2(party, data, draws, old(State()), received)
    {
      hide Phase2Outcome;
      var taken := phase1_to_2;
      phase1_to_2 := None;
      if taken.None? {
        return Err(Recover(party.party_index, PhaseCalledOutOfOrder));
      }
      var outcome := SignPhase2(party, data, taken.value.0, taken.value.1, draws, received);
      if outcome.Err? {
        return Err(outcome.error);
      }
      phase2_to_3 := Some((outcome.value.0, outcome.value.1));
      return Ok(outcome.value.2);
    }

    method Phase3(received: seq<TransmitPhase2to3>) returns (r: Result<Broadcast3to4, Abort>)
      modifies this
      ensures (State(), r) == After3(party, data, old(State()), received)
    {
      hide Phase3Outcome;
      var taken := phase2_to_3;
      phase2_to_3 := None;
      if taken.None? {
        return Err(Recover(party.party_index, PhaseCalledOutOfOrder));
      }
      var outcome := SignPhase3(party, data, taken.value.0, taken.value.1, received);
      if outcome.Err? {
        return Err(outcome.error);
      }
      x_coord := Some(outcome.value.0);
      return Ok(outcome.value.1);
    }

    method Phase4(received: seq<Broadcast3to4>, normalize: bool) returns (r: Result<EcdsaSignature, Abort>)
      modifies this
      ensures (State(), r) == After4(party, data, old(State()), received, normalize)
    {
      hide Phase4Outcome;
      var taken := x_coord;
      x_coord := None;
      if taken.None? {
        return Err(Recover(party.party_index, PhaseCalledOutOfOrder));
      }
      var outcome := SignPhase4(party.party_index, party.pk, data.message_hash, taken.value, received, normalize);
      if outcome.Err? {
        return Err(outcome.error);
      }
      return Ok(EcdsaSignature(taken.value, outcome.value.0, outcome.value.1));
    }
  }

  /** At most one phase is pending. */
  predicate OnePending(state: SessionState) {
    && (state.phase1_to_2.Some? ==> state.phase2_to_3.None? && state.x_coord.None?)
    && (state.phase2_to_3.Some? ==> state.x_coord.None?)
  }

  /** Nothing pending: no phase can succeed any more. */
  function Spent(): SessionState {
    SessionState(None, None, None)
  }

  /** A call out of order fails and changes nothing. A call of the pending phase leaves exactly the next phase pending if it
      succeeds, and nothing if it fails, so each phase succeeds at most once and only after the one before it. */
  lemma PhasesInOrder(party: Party, data: SignData, draws: SignDraws, state: SessionState,
                      received1: seq<TransmitPhase1to2>, received2: seq<TransmitPhase2to3>, received3: seq<Broadcast3to4>, normalize: bool)
    requires OnePending(state)
    ensures var (s2, r2) := After2(party, data, draws, state, received1);
      && OnePending(s2)
      && (state.phase1_to_2.None? ==> s2 == state && r2 == Err(Recover(party.party_index, PhaseCalledOutOfOrder)))
      && (state.phase1_to_2.Some? ==> if r2.Ok? then s2 == Spent().(phase2_to_3 := s2.phase2_to_3) && s2.phase2_to_3.Some? else s2 == Spent())
    ensures var (s3, r3) := After3(party, data, state, received2);
      && OnePending(s3)
      && (state.phase2_to_3.None? ==> s3 == state && r3 == Err(Recover(party.party_index, PhaseCalledOutOfOrder)))
      && (state.phase2_to_3.Some? ==> if r3.Ok? then s3 == Spent().(x_coord := s3.x_coord) && s3.x_coord.Some? else s3 == Spent())
    ensures var (s4, r4) := After4(party, data, state, received3, normalize);
      && OnePending(s4)
      && (state.x_coord.None? ==> s4 == state && r4 == Err(Recover(party.party_index, PhaseCalledOutOfOrder)))
      && (state.x_coord.Some? ==> s4 == Spent() && (r4.Ok? ==> r4.value.r == state.x_coord.value))
  {
    hide Phase2Outcome, Phase3Outcome, Phase4Outcome;
  }
}
