/** The signing protocol: the first three phases as one party runs them. */
module Signing {
  import opened Outcomes
  import opened PrimeField
  import opened Sums
  import opened Polynomials
  import opened Hashes
  import opened Curve
  import opened OracleTags
  import opened Transpose
  import opened OTExtension
  import opened Multiplication
  import opened Protocols
  import opened ZeroShares
  import opened Ecdsa

  datatype SignData = SignData(sign_id: Bytes, counterparties: seq<PartyIndex>, message_hash: HashOutput)

  datatype Body1 = Body1(commitment: HashOutput, mul_transmit: OTEDataToSender)
  type TransmitPhase1to2 = Transmit<Body1>

  datatype Body2 = Body2(gamma_u: Point, gamma_v: Point, psi: Scalar, public_share: Point, instance_point: Point,
                         salt: Bytes, mul_transmit: MulDataToReceiver)
  type TransmitPhase2to3 = Transmit<Body2>

  datatype KeepPhase1to2 = KeepPhase1to2(salt: Bytes, chi: Scalar, mul_keep: MulDataToKeepReceiver)

  datatype KeepPhase2to3 = KeepPhase2to3(c_u: Scalar, c_v: Scalar, commitment: HashOutput, mul_keep: MulDataToKeepReceiver, chi: Scalar)

  datatype UniqueKeep1to2 = UniqueKeep1to2(instance_key: Scalar, instance_point: Point, inversion_mask: Scalar, zeta: Scalar)

  datatype UniqueKeep2to3 = UniqueKeep2to3(
    instance_key: Scalar, instance_point: Point, inversion_mask: Scalar, key_share: Scalar, public_share: Point)

  /** What a party draws for one counterparty: as receiver the salt, the choice bits and the noise, as sender
      the pads and check values. */
  datatype PairDraws = PairDraws(salt: Bytes, choice_bits: seq<bool>, noise: seq<bool>, a_tilde: seq<Scalar>, a_hat: seq<Scalar>)

  predicate IsPairDraws(d: PairDraws) {
    |d.choice_bits| == BATCH_SIZE && |d.noise| == OT_SECURITY && |d.a_tilde| == |d.a_hat| == L
  }

  type ValidPairDraws = d: PairDraws | IsPairDraws(d)
    witness PairDraws([], seq(BATCH_SIZE, _ => false), seq(OT_SECURITY, _ => false), [0, 0], [0, 0])

  datatype SignDraws = SignDraws(instance_key: Scalar, inversion_mask: Scalar, pairs: PartyIndex -> ValidPairDraws)

  /** The session id of the multiplication of one ordered pair. */
  function MulSid(receiver: PartyIndex, sender: PartyIndex, party: Party, data: SignData): Bytes {
    Ascii("Multiplication protocol") + BigEndian(receiver, 1) + BigEndian(sender, 1)
    + party.session_id + data.sign_id + party.derivation_data.chain_code
  }

  function ZeroSid(party: Party, data: SignData): Bytes {
    Ascii("Zero shares protocol") + party.session_id + data.sign_id + party.derivation_data.chain_code
  }

  // Phase 1

  /** The complaint about one counterparty. */
  function CounterpartyFault(party: Party, c: PartyIndex, seen: set<PartyIndex>): Option<AbortReason> {
    if c > party.parameters.share_count then Some(InvalidPartyIndex(c))
    else if c in seen then Some(DuplicateCounterparty(c))
    else if c == party.party_index then Some(SelfInCounterparties)
    else if c !in party.mul_senders || c !in party.mul_receivers then Some(MissingMulState(c))
    else None
  }

  function FirstFault(party: Party, cs: seq<PartyIndex>, seen: set<PartyIndex>): Option<AbortReason> {
    if cs == [] then None
    else
      var fault := CounterpartyFault(party, cs[0], seen);
      if fault.Some? then fault else FirstFault(party, cs[1..], seen + {cs[0]})
  }

  method ValidateCounterparties(party: Party, cs: seq<PartyIndex>) returns (fault: Option<AbortReason>)
    ensures fault == FirstFault(party, cs, {})
  {
    var seen_counterparties: set<PartyIndex> := {};
    for i := 0 to |cs|
      invariant FirstFault(party, cs, {}) == FirstFault(party, cs[i..], seen_counterparties)
    {
      assert cs[i..][0] == cs[i] && cs[i..][1..] == cs[i + 1..];
      fault := CounterpartyFault(party, cs[i], seen_counterparties);
      if fault.Some? {
        return;
      }
      seen_counterparties := seen_counterparties + {cs[i]};
    }
    fault := None;
  }

  /** What phase 1 prepares for one counterparty. */
  ghost function Phase1Pair(party: Party, data: SignData, draws: SignDraws, c: PartyIndex)
    : Result<(KeepPhase1to2, TransmitPhase1to2), Abort>
  {
    if c !in party.mul_receivers then Err(Recover(party.party_index, MissingMulState(c)))
    else
      var d := draws.pairs(c);
      var first := MulReceiverRun1(party.mul_receivers[c], MulSid(party.party_index, c, party, data), d.choice_bits, d.noise);
      if first.Err? then Err(Recover(party.party_index, MultiplicationVerificationFailed(c)))
      else
        var (chi, mul_keep, mul_transmit) := first.value;
        Ok((KeepPhase1to2(d.salt, chi, mul_keep),
            Transmit(PartiesMessage(party.party_index, c),
                     Body1(Commitment(PointBytes(Base(draws.instance_key)), d.salt), mul_transmit))))
  }

  type Kept1 = map<PartyIndex, KeepPhase1to2>

  ghost function Phase1Loop(party: Party, data: SignData, draws: SignDraws, cs: seq<PartyIndex>, keep: Kept1,
                            transmit: seq<TransmitPhase1to2>)
    : Result<(Kept1, seq<TransmitPhase1to2>), Abort>
  {
    if cs == [] then Ok((keep, transmit))
    else
      var pair := Phase1Pair(party, data, draws, cs[0]);
      if pair.Err? then Err(pair.error)
      else Phase1Loop(party, data, draws, cs[1..], keep[cs[0] := pair.value.0], transmit + [pair.value.1])
  }

  ghost function Phase1Outcome(party: Party, data: SignData, draws: SignDraws)
    : Result<(UniqueKeep1to2, Kept1, seq<TransmitPhase1to2>), Abort>
  {
    var me, cs := party.party_index, data.counterparties;
    if |cs| != party.parameters.threshold - 1 then
      Err(Recover(me, WrongCounterpartyCount(party.parameters.threshold - 1, |cs|)))
    else if me > party.parameters.share_count then Err(Recover(me, InvalidPartyIndex(me)))
    else
      var fault := FirstFault(party, cs, {});
      if fault.Some? then Err(Recover(me, fault.value))
      else
        var pairs := Phase1Loop(party, data, draws, cs, map[], []);
        if pairs.Err? then Err(pairs.error)
        else Ok((UniqueKeep1to2(draws.instance_key, Base(draws.instance_key), draws.inversion_mask,
                                Zeta(party.zero_share, cs, ZeroSid(party, data))), pairs.value.0, pairs.value.1))
  }

  method PreparePair(party: Party, data: SignData, draws: SignDraws, c: PartyIndex)
    returns (r: Result<(KeepPhase1to2, TransmitPhase1to2), Abort>)
    ensures r == Phase1Pair(party, data, draws, c)
  {
    hide MulReceiverRun1, MulSid;
    if c !in party.mul_receivers {
      return Err(Recover(party.party_index, MissingMulState(c)));
    }
    var d := draws.pairs(c);
    var commitment := Commitment(PointBytes(Base(draws.instance_key)), d.salt);
    var first := RunMulReceiver1(party.mul_receivers[c], MulSid(party.party_index, c, party, data), d.choice_bits, d.noise);
    if first.Err? {
      return Err(Recover(party.party_index, MultiplicationVerificationFailed(c)));
    }
    var (chi, mul_keep, mul_transmit) := first.value;
    return Ok((KeepPhase1to2(d.salt, chi, mul_keep),
               Transmit(PartiesMessage(party.party_index, c), Body1(commitment, mul_transmit))));
  }

  /** sign_phase1 */
  method SignPhase1(party: Party, data: SignData, draws: SignDraws)
    returns (r: Result<(UniqueKeep1to2, Kept1, seq<TransmitPhase1to2>), Abort>)
    ensures r == Phase1Outcome(party, data, draws)
  {
    hide Phase1Pair, Zeta, FirstFault;
    var me, cs := party.party_index, data.counterparties;
    if |cs| != party.parameters.threshold - 1 {
      return Err(Recover(me, WrongCounterpartyCount(party.parameters.threshold - 1, |cs|)));
    }
    if me > party.parameters.share_count {
      return Err(Recover(me, InvalidPartyIndex(me)));
    }
    var fault := ValidateCounterparties(party, cs);
    if fault.Some? {
      return Err(Recover(me, fault.value));
    }
    var keep: Kept1, transmit: seq<TransmitPhase1to2> := map[], [];
    for i := 0 to |cs|
      invariant Phase1Loop(party, data, draws, cs, map[], []) == Phase1Loop(party, data, draws, cs[i..], keep, transmit)
    {
      assert cs[i..][0] == cs[i] && cs[i..][1..] == cs[i + 1..];
      var pair := PreparePair(party, data, draws, cs[i]);
      if pair.Err? {
        return Err(pair.error);
      }
      keep := keep[cs[i] := pair.value.0];
      transmit := transmit + [pair.value.1];
    }
    var zeta := ComputeZeta(party.zero_share, cs, ZeroSid(party, data));
    return Ok((UniqueKeep1to2(draws.instance_key, Base(draws.instance_key), draws.inversion_mask, zeta), keep, transmit));
  }

  // Phase 2

  function IndexScalars(cs: seq<PartyIndex>): (xs: seq<Scalar>)
    ensures |xs| == |cs|
  {
    seq<Scalar>(|cs|, k requires 0 <= k < |cs| => cs[k])
  }

  /** The denominator of the Lagrange coefficient of party me. */
  function LagrangeDenominator(me: PartyIndex, cs: seq<PartyIndex>): Scalar {
    Prod(Differences(IndexScalars(cs), me))
  }

  /** sk_i: the interpolation summand of this party plus its share of zero. */
  function KeyShare(party: Party, cs: seq<PartyIndex>, zeta: Scalar): Option<Scalar> {
    var denominator := LagrangeDenominator(party.party_index, cs);
    if denominator == 0 then None
    else Some(Add(Mul(party.poly_point, Mul(Prod(IndexScalars(cs)), Inv(denominator))), zeta))
  }

  method ComputeKeyShare(party: Party, cs: seq<PartyIndex>, zeta: Scalar) returns (key_share: Option<Scalar>)
    ensures key_share == KeyShare(party, cs, zeta)
  {
    ghost var xs := IndexScalars(cs);
    ghost var ds := Differences(xs, party.party_index);
    var l_numerator: Scalar, l_denominator: Scalar := 1, 1;
    for k := 0 to |cs|
      invariant l_numerator == Prod(xs[..k]) && l_denominator == Prod(ds[..k])
    {
      assert xs[..k + 1][..k] == xs[..k] && ds[..k + 1][..k] == ds[..k];
      var c: Scalar := cs[k];
      l_numerator := Mul(l_numerator, c);
      l_denominator := Mul(l_denominator, Sub(c, party.party_index));
    }
    assert xs[..|cs|] == xs && ds[..|cs|] == ds;
    if l_denominator == 0 {
      return None;
    }
    var l := Mul(l_numerator, Inv(l_denominator));
    return Some(Add(Mul(party.poly_point, l), zeta));
  }

  /** The order in which a message of phase 2 or 3 is checked before its content. */
  function RoutingFault(me: PartyIndex, cs: seq<PartyIndex>, parties: PartiesMessage): Option<AbortReason> {
    if parties.sender !in cs then Some(UnexpectedSender(parties.sender))
    else if parties.receiver != me then Some(MisroutedMessage(me, parties.receiver))
    else None
  }

  type Kept2 = map<PartyIndex, KeepPhase2to3>

  /** What phase 2 makes of one message. */
  ghost function Phase2Message(party: Party, data: SignData, unique: UniqueKeep1to2, kept: Kept1, key_share: Scalar,
                               draws: SignDraws, m: TransmitPhase1to2, seen: set<PartyIndex>)
    : Result<(KeepPhase2to3, TransmitPhase2to3), Abort>
  {
    var me, c := party.party_index, m.parties.sender;
    var fault := RoutingFault(me, data.counterparties, m.parties);
    if fault.Some? then Err(Recover(me, fault.value))
    else if c in seen then Err(Recover(me, DuplicateSender(c)))
    else if c !in kept || c !in party.mul_senders then Err(Recover(me, MissingMulState(c)))
    else
      var d := draws.pairs(c);
      var sent := MulSenderRun(party.mul_senders[c], MulSid(c, me, party, data), [unique.instance_key, key_share],
                               m.body.mul_transmit, d.a_tilde, d.a_hat);
      if sent.Err? then Err(Ban(me, c, MultiplicationVerificationFailed(c)))
      else
        var (c_u, c_v) := (sent.value.0[0], sent.value.0[1]);
        Ok((KeepPhase2to3(c_u, c_v, m.body.commitment, kept[c].mul_keep, kept[c].chi),
            Transmit(PartiesMessage(me, c),
                     Body2(Base(c_u), Base(c_v), Sub(unique.inversion_mask, kept[c].chi), Base(key_share),
                           unique.instance_point, kept[c].salt, sent.value.1))))
  }

  ghost function Phase2Loop(party: Party, data: SignData, unique: UniqueKeep1to2, kept: Kept1, key_share: Scalar,
                            draws: SignDraws, received: seq<TransmitPhase1to2>, seen: set<PartyIndex>,
                            keep: Kept2, transmit: seq<TransmitPhase2to3>)
    : Result<(Kept2, seq<TransmitPhase2to3>), Abort>
  {
    if received == [] then Ok((keep, transmit))
    else
      var c := received[0].parties.sender;
      var r := Phase2Message(party, data, unique, kept, key_share, draws, received[0], seen);
      if r.Err? then Err(r.error)
      else Phase2Loop(party, data, unique, kept, key_share, draws, received[1..], seen + {c}, keep[c := r.value.0], transmit + [r.value.1])
  }

  ghost function Phase2Outcome(party: Party, data: SignData, unique: UniqueKeep1to2, kept: Kept1, draws: SignDraws,
                               received: seq<TransmitPhase1to2>): Result<(UniqueKeep2to3, Kept2, seq<TransmitPhase2to3>), Abort>
  {
    var me, cs := party.party_index, data.counterparties;
    var key_share := KeyShare(party, cs, unique.zeta);
    if key_share.None? then Err(Recover(me, LagrangeCoefficientFailed))
    else if |received| != |cs| then Err(Recover(me, WrongMessageCount(|cs|, |received|)))
    else
      var pairs := Phase2Loop(party, data, unique, kept, key_share.value, draws, received, {}, map[], []);
      if pairs.Err? then Err(pairs.error)
      else Ok((UniqueKeep2to3(unique.instance_key, unique.instance_point, unique.inversion_mask, key_share.value,
                              Base(key_share.value)), pairs.value.0, pairs.value.1))
  }

  method ProcessPhase2(party: Party, data: SignData, unique: UniqueKeep1to2, kept: Kept1, key_share: Scalar,
                       draws: SignDraws, m: TransmitPhase1to2, seen: set<PartyIndex>)
    returns (r: Result<(KeepPhase2to3, TransmitPhase2to3), Abort>)
    ensures r == Phase2Message(party, data, unique, kept, key_share, draws, m, seen)
  {
    hide MulSenderRun, MulSid;
    var me, c := party.party_index, m.parties.sender;
    if c !in data.counterparties {
      return Err(Recover(me, UnexpectedSender(c)));
    }
    if m.parties.receiver != me {
      return Err(Recover(me, MisroutedMessage(me, m.parties.receiver)));
    }
    if c in seen {
      return Err(Recover(me, DuplicateSender(c)));
    }
    if c !in kept || c !in party.mul_senders {
      return Err(Recover(me, MissingMulState(c)));
    }
    var d := draws.pairs(c);
    var input := [unique.instance_key, key_share];
    var sent := RunMulSender(party.mul_senders[c], MulSid(c, me, party, data), input, m.body.mul_transmit, d.a_tilde, d.a_hat);
    if sent.Err? {
      return Err(Ban(me, c, MultiplicationVerificationFailed(c)));
    }
    var (c_u, c_v) := (sent.value.0[0], sent.value.0[1]);
    var psi := Sub(unique.inversion_mask, kept[c].chi);
    return Ok((KeepPhase2to3(c_u, c_v, m.body.commitment, kept[c].mul_keep, kept[c].chi),
               Transmit(PartiesMessage(me, c), Body2(Base(c_u), Base(c_v), psi, Base(key_share), unique.instance_point,
                                                     kept[c].salt, sent.value.1))));
  }

  /** sign_phase2 */
  method SignPhase2(party: Party, data: SignData, unique: UniqueKeep1to2, kept: Kept1, draws: SignDraws,
                    received: seq<TransmitPhase1to2>)
    returns (r: Result<(UniqueKeep2to3, Kept2, seq<TransmitPhase2to3>), Abort>)
    ensures r == Phase2Outcome(party, data, unique, kept, draws, received)
  {
    hide Phase2Message, KeyShare;
    var me, cs := party.party_index, data.counterparties;
    var key_share := ComputeKeyShare(party, cs, unique.zeta);
    if key_share.None? {
      return Err(Recover(me, LagrangeCoefficientFailed));
    }
    if |received| != |cs| {
      return Err(Recover(me, WrongMessageCount(|cs|, |received|)));
    }
    var keep: Kept2, transmit: seq<TransmitPhase2to3> := map[], [];
    var seen_senders: set<PartyIndex> := {};
    for i := 0 to |received|
      invariant Phase2Loop(party, data, unique, kept, key_share.value, draws, received, {}, map[], [])
             == Phase2Loop(party, data, unique, kept, key_share.value, draws, received[i..], seen_senders, keep, transmit)
    {
      assert received[i..][0] == received[i] && received[i..][1..] == received[i + 1..];
      var c := received[i].parties.sender;
      var pair := ProcessPhase2(party, data, unique, kept, key_share.value, draws, received[i], seen_senders);
      if pair.Err? {
        return Err(pair.error);
      }
      seen_senders := seen_senders + {c};
      keep := keep[c := pair.value.0];
      transmit := transmit + [pair.value.1];
    }
    return Ok((UniqueKeep2to3(unique.instance_key, unique.instance_point, unique.inversion_mask, key_share.value,
                              Base(key_share.value)), keep, transmit));
  }

  // Phase 3

  /** The sums that phase 3 accumulates. */
  datatype Totals = Totals(public_key: Point, instance_point: Point, psi: Scalar, u: Scalar, v: Scalar)

  /** Whether phase 3 accepts a message, apart from repetition; the outputs d_u and d_v if it does. */
  function Phase3Content(party: Party, data: SignData, kept: Kept2, m: TransmitPhase2to3): Result<(Scalar, Scalar), Abort>
  {
    var me, c := party.party_index, m.parties.sender;
    if c !in kept then Err(Recover(me, MissingMulState(c)))
    else if kept[c].commitment != Commitment(PointBytes(m.body.instance_point), m.body.salt) then
      Err(Recover(me, CommitmentMismatch(c)))
    else if c !in party.mul_receivers then Err(Recover(me, MissingMulState(c)))
    else
      var output := MulReceiverRun2(party.mul_receivers[c], MulSid(me, c, party, data), kept[c].mul_keep, m.body.mul_transmit);
      if output.Err? then Err(Ban(me, c, MultiplicationVerificationFailed(c)))
      else
        var (d_u, d_v) := (output.value[0], output.value[1]);
        if Times(m.body.instance_point, kept[c].chi) != Plus(Base(d_u), m.body.gamma_u) then
          Err(Ban(me, c, GammaUInconsistency(c)))
        else if Times(m.body.public_share, kept[c].chi) != Plus(Base(d_v), m.body.gamma_v) then
          Err(Ban(me, c, OtConsistencyCheckFailed(c)))
        else Ok((d_u, d_v))
  }

  function Phase3Message(party: Party, data: SignData, kept: Kept2, m: TransmitPhase2to3, seen: set<PartyIndex>)
    : Result<(Scalar, Scalar), Abort>
  {
    var me, c := party.party_index, m.parties.sender;
    var fault := RoutingFault(me, data.counterparties, m.parties);
    if fault.Some? then Err(Recover(me, fault.value))
    else if m.body.instance_point == IDENTITY then Err(Recover(me, TrivialInstancePoint(c)))
    else if c in seen then Err(Recover(me, DuplicateSender(c)))
    else Phase3Content(party, data, kept, m)
  }

  function AddMessage(t: Totals, kept: Kept2, m: TransmitPhase2to3, d: (Scalar, Scalar)): Totals
    requires m.parties.sender in kept
  {
    var k := kept[m.parties.sender];
    Totals(Plus(t.public_key, m.body.public_share), Plus(t.instance_point, m.body.instance_point), Add(t.psi, m.body.psi),
           Add(Add(t.u, k.c_u), d.0), Add(Add(t.v, k.c_v), d.1))
  }

  function Phase3Loop(party: Party, data: SignData, kept: Kept2, received: seq<TransmitPhase2to3>, seen: set<PartyIndex>,
                      totals: Totals)
    : Result<Totals, Abort>
  {
    if received == [] then Ok(totals)
    else
      var r := Phase3Message(party, data, kept, received[0], seen);
      if r.Err? then Err(r.error)
      else Phase3Loop(party, data, kept, received[1..], seen + {received[0].parties.sender},
                      AddMessage(totals, kept, received[0], r.value))
  }

  /** The values that are broadcast, from the final sums. */
  function FinalBroadcast(data: SignData, unique: UniqueKeep2to3, t: Totals): Broadcast3to4 {
    var v := Add(Mul(unique.key_share, t.psi), t.v);
    Broadcast3to4(
      Add(Mul(unique.instance_key, t.psi), t.u),
      Add(Mul(ReduceHash(data.message_hash), unique.inversion_mask), Mul(v, Of(X(t.instance_point)))))
  }

  function InitialTotals(unique: UniqueKeep2to3): Totals {
    Totals(unique.public_share, unique.instance_point, unique.inversion_mask, 0, 0)
  }

  function Phase3Outcome(party: Party, data: SignData, unique: UniqueKeep2to3, kept: Kept2, received: seq<TransmitPhase2to3>)
    : Result<(nat, Broadcast3to4), Abort>
  {
    var me, cs := party.party_index, data.counterparties;
    if |received| != |cs| then Err(Recover(me, WrongMessageCount(|cs|, |received|)))
    else
      var t := Phase3Loop(party, data, kept, received, {}, InitialTotals(unique));
      if t.Err? then Err(t.error)
      else if t.value.public_key != party.pk then Err(Recover(me, PolynomialInconsistency))
      else if t.value.instance_point == IDENTITY then Err(Recover(me, PolynomialInconsistency))
      else Ok((X(t.value.instance_point), FinalBroadcast(data, unique, t.value)))
  }

  method CheckContent(party: Party, data: SignData, kept: Kept2, m: TransmitPhase2to3)
    returns (r: Result<(Scalar, Scalar), Abort>)
    ensures r == Phase3Content(party, data, kept, m)
  {
    hide MulReceiverRun2, MulSid;
    var me, c := party.party_index, m.parties.sender;
    if c !in kept {
      return Err(Recover(me, MissingMulState(c)));
    }
    var verification := VerifyCommitment(PointBytes(m.body.instance_point), kept[c].commitment, m.body.salt);
    if !verification {
      return Err(Recover(me, CommitmentMismatch(c)));
    }
    if c !in party.mul_receivers {
      return Err(Recover(me, MissingMulState(c)));
    }
    var output := RunMulReceiver2(party.mul_receivers[c], MulSid(me, c, party, data), kept[c].mul_keep, m.body.mul_transmit);
    if output.Err? {
      return Err(Ban(me, c, MultiplicationVerificationFailed(c)));
    }
    var (d_u, d_v) := (output.value[0], output.value[1]);
    if Times(m.body.instance_point, kept[c].chi) != Plus(Base(d_u), m.body.gamma_u) {
      return Err(Ban(me, c, GammaUInconsistency(c)));
    }
    if Times(m.body.public_share, kept[c].chi) != Plus(Base(d_v), m.body.gamma_v) {
      return Err(Ban(me, c, OtConsistencyCheckFailed(c)));
    }
    return Ok((d_u, d_v));
  }

  method CheckMessage(party: Party, data: SignData, kept: Kept2, m: TransmitPhase2to3, seen: set<PartyIndex>)
    returns (r: Result<(Scalar, Scalar), Abort>)
    ensures r == Phase3Message(party, data, kept, m, seen)
  {
    hide Phase3Content;
    var me, c := party.party_index, m.parties.sender;
    if c !in data.counterparties {
      return Err(Recover(me, UnexpectedSender(c)));
    }
    if m.parties.receiver != me {
      return Err(Recover(me, MisroutedMessage(me, m.parties.receiver)));
    }
    if m.body.instance_point == IDENTITY {
      return Err(Recover(me, TrivialInstancePoint(c)));
    }
    if c in seen {
      return Err(Recover(me, DuplicateSender(c)));
    }
    r := CheckContent(party, data, kept, m);
  }

  /** sign_phase3 */
  method SignPhase3(party: Party, data: SignData, unique: UniqueKeep2to3, kept: Kept2, received: seq<TransmitPhase2to3>)
    returns (r: Result<(nat, Broadcast3to4), Abort>)
    ensures r == Phase3Outcome(party, data, unique, kept, received)
  {
    hide Phase3Content, RoutingFault;
    var me, cs := party.party_index, data.counterparties;
    var expected_public_key := unique.public_share;
    var total_instance_point := unique.instance_point;
    var first_sum_u_v := unique.inversion_mask;
    var second_sum_u: Scalar, second_sum_v: Scalar := 0, 0;
    if |received| != |cs| {
      return Err(Recover(me, WrongMessageCount(|cs|, |received|)));
    }
    var seen_senders: set<PartyIndex> := {};
    for i := 0 to |received|
      invariant Phase3Loop(party, data, kept, received, {}, InitialTotals(unique))
             == Phase3Loop(party, data, kept, received[i..], seen_senders,
                           Totals(expected_public_key, total_instance_point, first_sum_u_v, second_sum_u, second_sum_v))
    {
      assert received[i..][0] == received[i] && received[i..][1..] == received[i + 1..];
      var message := received[i];
      var counterparty := message.parties.sender;
      var d := CheckMessage(party, data, kept, message, seen_senders);
      if d.Err? {
        return Err(d.error);
      }
      AcceptedIsKept(party, data, kept, message, seen_senders);
      var current_kept := kept[counterparty];
      var (d_u, d_v) := d.value;
      seen_senders := seen_senders + {counterparty};
      expected_public_key := Plus(expected_public_key, message.body.public_share);
      total_instance_point := Plus(total_instance_point, message.body.instance_point);
      first_sum_u_v := Add(first_sum_u_v, message.body.psi);
      second_sum_u := Add(Add(second_sum_u, current_kept.c_u), d_u);
      second_sum_v := Add(Add(second_sum_v, current_kept.c_v), d_v);
    }
    if expected_public_key != party.pk {
      return Err(Recover(me, PolynomialInconsistency));
    }
    if total_instance_point == IDENTITY {
      return Err(Recover(me, PolynomialInconsistency));
    }
    var u := Add(Mul(unique.instance_key, first_sum_u_v), second_sum_u);
    var v := Add(Mul(unique.key_share, first_sum_u_v), second_sum_v);
    var x_coord := X(total_instance_point);
    var w := Add(Mul(ReduceHash(data.message_hash), unique.inversion_mask), Mul(v, Of(x_coord)));
    return Ok((x_coord, Broadcast3to4(u, w)));
  }

  lemma AcceptedIsKept(party: Party, data: SignData, kept: Kept2, m: TransmitPhase2to3, seen: set<PartyIndex>)
    requires Phase3Message(party, data, kept, m, seen).Ok?
    ensures m.parties.sender in kept && m.parties.sender in data.counterparties && m.parties.sender !in seen
  {}
}
