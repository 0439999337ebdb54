/** The last phase of distributed key generation: checking everything received and assembling the party. */
module KeyGenerationFinish {
  import opened Outcomes
  import opened PrimeField
  import opened Hashes
  import opened PackedBits
  import opened Curve
  import opened Proofs
  import opened BaseOT
  import opened Multiplication
  import opened Protocols
  import opened MessageRouting
  import opened ZeroShares
  import opened KeyGenerationSteps
  import opened KeyGeneration

  type Commitments = map<PartyIndex, HashOutput>
  type Openings = map<PartyIndex, ZeroBody3>

  // Zero shares

  /** What the zero-share loop makes of one counterparty. */
  function ZeroSeed(me: PartyIndex, mine: HashOutput, two: Commitments, three: Openings, j: PartyIndex): Result<SeedPair, Abort> {
    if j !in two || j !in three then Err(Recover(me, MissingMessageFromParty(j)))
    else if two[j] != Commitment(three[j].seed, three[j].salt) then Err(Recover(me, ZeroShareDecommitFailed(j)))
    else Ok(SeedPairOf(me, j, mine, three[j].seed))
  }

  /** The seed pairs of the counterparties from i on, in increasing order. */
  function ZeroLoop(me: PartyIndex, kept: map<PartyIndex, HashOutput>, two: Commitments, three: Openings, i: nat,
                    seeds: seq<SeedPair>)
    : Result<seq<SeedPair>, Abort>
    requires i >= 1
    decreases 256 - i
  {
    if i > 255 then Ok(seeds)
    else if i !in kept then ZeroLoop(me, kept, two, three, i + 1, seeds)
    else
      var pair := ZeroSeed(me, kept[i], two, three, i);
      if pair.Err? then Err(pair.error) else ZeroLoop(me, kept, two, three, i + 1, seeds + [pair.value])
  }

  function ZeroOutcome(me: PartyIndex, kept: map<PartyIndex, HashOutput>, received2: seq<Transmit<HashOutput>>,
                       received3: seq<Transmit<ZeroBody3>>)
    : Result<ZeroShare, Abort>
  {
    var two := Collected(me, kept.Keys, received2, map[]);
    if two.Err? then Err(two.error)
    else
      var three := Collected(me, kept.Keys, received3, map[]);
      if three.Err? then Err(three.error)
      else if |two.value| != |kept| then Err(Recover(me, WrongMessageCount(|kept|, |two.value|)))
      else if |three.value| != |kept| then Err(Recover(me, WrongMessageCount(|kept|, |three.value|)))
      else
        var seeds := ZeroLoop(me, kept, two.value, three.value, 1, []);
        if seeds.Err? then Err(seeds.error) else Ok(ZeroShare(seeds.value))
  }

  method FinishZeroShares(me: PartyIndex, kept: map<PartyIndex, HashOutput>, received2: seq<Transmit<HashOutput>>,
                          received3: seq<Transmit<ZeroBody3>>)
    returns (r: Result<ZeroShare, Abort>)
    ensures r == ZeroOutcome(me, kept, received2, received3)
  {
    hide Collected;
    var two := CollectBySender(me, kept.Keys, received2);
    if two.Err? {
      return Err(two.error);
    }
    var three := CollectBySender(me, kept.Keys, received3);
    if three.Err? {
      return Err(three.error);
    }
    if |two.value| != |kept| {
      return Err(Recover(me, WrongMessageCount(|kept|, |two.value|)));
    }
    if |three.value| != |kept| {
      return Err(Recover(me, WrongMessageCount(|kept|, |three.value|)));
    }
    var seeds: seq<SeedPair> := [];
    for i := 1 to 256
      invariant ZeroLoop(me, kept, two.value, three.value, 1, []) == ZeroLoop(me, kept, two.value, three.value, i, seeds)
    {
      if i in kept {
        if i !in two.value || i !in three.value {
          return Err(Recover(me, MissingMessageFromParty(i)));
        }
        var verification := VerifyCommitment(three.value[i].seed, two.value[i], three.value[i].salt);
        if !verification {
          return Err(Recover(me, ZeroShareDecommitFailed(i)));
        }
        var pair := GenerateSeedPair(me, i, kept[i], three.value[i].seed);
        seeds := seeds + [pair];
      }
    }
    return Ok(ZeroShare(seeds));
  }

  // Multiplication

  type Receivers = map<PartyIndex, MulReceiver>
  type MulSenders = map<PartyIndex, MulSender>

  /** The two ends that me sets up with party j. */
  ghost function MulEnds(data: SessionData, kept: KeepMul, body: MulBody, j: PartyIndex)
    : Result<(MulReceiver, MulSender), Abort>
  {
    var me := data.party_index;
    var receiver := MulReceiverOf(kept.ot_sender, MulInitSid(me, j, data.session_id), body.seed, body.enc_proofs, kept.nonce);
    if receiver.Err? then Err(Recover(me, MultiplicationVerificationFailed(j)))
    else
      var sender := MulSenderOf(MulInitSid(j, me, data.session_id), kept.correlation, kept.vec_r, body.dlog_proof, body.nonce);
      if sender.Err? then Err(Recover(me, MultiplicationVerificationFailed(j))) else Ok((receiver.value, sender.value))
  }

  ghost function MulLoop(data: SessionData, kept: MulKept, received: map<PartyIndex, MulBody>, i: nat, receivers: Receivers,
                         senders: MulSenders)
    : Result<(Receivers, MulSenders), Abort>
    requires i >= 1
    decreases 256 - i
  {
    if i > 255 then Ok((receivers, senders))
    else if i !in kept then MulLoop(data, kept, received, i + 1, receivers, senders)
    else if i !in received then Err(Recover(data.party_index, MissingMessageFromParty(i)))
    else
      var ends := MulEnds(data, kept[i], received[i], i);
      if ends.Err? then Err(ends.error)
      else MulLoop(data, kept, received, i + 1, receivers[i := ends.value.0], senders[i := ends.value.1])
  }

  ghost function MulOutcome(data: SessionData, kept: MulKept, received: seq<Transmit<MulBody>>)
    : Result<(Receivers, MulSenders), Abort>
  {
    var me := data.party_index;
    var by_sender := Collected(me, kept.Keys, received, map[]);
    if by_sender.Err? then Err(by_sender.error)
    else if |by_sender.value| != |kept| then Err(Recover(me, WrongMessageCount(|kept|, |by_sender.value|)))
    else MulLoop(data, kept, by_sender.value, 1, map[], map[])
  }

  method SetUpEnds(data: SessionData, kept: KeepMul, body: MulBody, j: PartyIndex)
    returns (r: Result<(MulReceiver, MulSender), Abort>)
    ensures r == MulEnds(data, kept, body, j)
  {
    hide MulReceiverOf, MulSenderOf, MulInitSid;
    var me := data.party_index;
    var receiver := InitMulReceiver(kept.ot_sender, MulInitSid(me, j, data.session_id), body.seed, body.enc_proofs, kept.nonce);
    if receiver.Err? {
      return Err(Recover(me, MultiplicationVerificationFailed(j)));
    }
    var sender := InitMulSender(MulInitSid(j, me, data.session_id), kept.correlation, kept.vec_r, body.dlog_proof, body.nonce);
    if sender.Err? {
      return Err(Recover(me, MultiplicationVerificationFailed(j)));
    }
    return Ok((receiver.value, sender.value));
  }

  method FinishMultiplication(data: SessionData, kept: MulKept, received: seq<Transmit<MulBody>>)
    returns (r: Result<(Receivers, MulSenders), Abort>)
    ensures r == MulOutcome(data, kept, received)
  {
    hide Collected, MulEnds;
    var me := data.party_index;
    var by_sender := CollectBySender(me, kept.Keys, received);
    if by_sender.Err? {
      return Err(by_sender.error);
    }
    if |by_sender.value| != |kept| {
      return Err(Recover(me, WrongMessageCount(|kept|, |by_sender.value|)));
    }
    var mul_receivers: Receivers, mul_senders: MulSenders := map[], map[];
    for i := 1 to 256
      invariant MulLoop(data, kept, by_sender.value, 1, map[], map[])
             == MulLoop(data, kept, by_sender.value, i, mul_receivers, mul_senders)
    {
      if i in kept {
        if i !in by_sender.value {
          return Err(Recover(me, MissingMessageFromParty(i)));
        }
        var ends := SetUpEnds(data, kept[i], by_sender.value[i], i);
        if ends.Err? {
          return Err(ends.error);
        }
        mul_receivers := mul_receivers[i := ends.value.0];
        mul_senders := mul_senders[i := ends.value.1];
      }
    }
    return Ok((mul_receivers, mul_senders));
  }

  // The chain code

  function ChainLoop(me: PartyIndex, n: nat, two: Commitments, three: map<PartyIndex, ChainBody3>, i: nat, chain_code: ChainCode)
    : Result<ChainCode, Abort>
    requires i >= 1 && n <= 255
    decreases n + 1 - i
  {
    if i > n then Ok(chain_code)
    else if i !in three || i !in two then Err(Recover(me, MissingMessageFromParty(i)))
    else if two[i] != Commitment(three[i].aux_chain_code, three[i].cc_salt) then Err(Recover(me, ChainCodeCommitmentFailed(i)))
    else ChainLoop(me, n, two, three, i + 1, XorBytes(chain_code, three[i].aux_chain_code))
  }

  function ZeroChain(): ChainCode {
    seq(SECURITY, _ => 0)
  }

  method FinishChainCode(me: PartyIndex, n: nat, two: Commitments, three: map<PartyIndex, ChainBody3>)
    returns (r: Result<ChainCode, Abort>)
    requires n <= 255
    ensures r == ChainLoop(me, n, two, three, 1, ZeroChain())
  {
    hide XorBytes;
    var chain_code: ChainCode := ZeroChain();
    for i := 1 to n + 1
      invariant ChainLoop(me, n, two, three, 1, ZeroChain()) == ChainLoop(me, n, two, three, i, chain_code)
    {
      if i !in three || i !in two {
        return Err(Recover(me, MissingMessageFromParty(i)));
      }
      var verification := VerifyCommitment(three[i].aux_chain_code, two[i], three[i].cc_salt);
      if !verification {
        return Err(Recover(me, ChainCodeCommitmentFailed(i)));
      }
      chain_code := XorBytes(chain_code, three[i].aux_chain_code);
    }
    return Ok(chain_code);
  }

  // The whole phase

  /** What phase 4 receives. */
  datatype Inputs4 = Inputs4(
    pcs: seq<ProofCommitment>, zero2: seq<Transmit<HashOutput>>, zero3: seq<Transmit<ZeroBody3>>, mul: seq<Transmit<MulBody>>,
    bip2: Commitments, bip3: map<PartyIndex, ChainBody3>)

  function NewParty(data: SessionData, poly_point: Scalar, pk: Point, zero_share: ZeroShare, receivers: Receivers,
                    senders: MulSenders, chain_code: ChainCode, address: string)
    : Party
  {
    Party(data.parameters, data.party_index, data.session_id, poly_point, pk, zero_share, senders, receivers,
          DerivData(0, 0, [0, 0, 0, 0], poly_point, pk, chain_code), address)
  }

  ghost function Phase4Outcome(data: SessionData, poly_point: Scalar, zero_kept: map<PartyIndex, HashOutput>, mul_kept: MulKept,
                               inputs: Inputs4, address_fn: Point -> string): Result<(Party, PublicKeyPackage), Abort>
  {
    var me := data.party_index;
    var key := Step5Outcome(data.parameters, me, data.session_id, inputs.pcs);
    if key.Err? then Err(key.error)
    else
      var (pk, verifying_shares) := key.value;
      if pk == IDENTITY || pk == GENERATOR then Err(Recover(me, TrivialPublicKey))
      else if poly_point == 0 || poly_point == 1 then Err(Recover(me, TrivialKeyShare))
      else
        var zero_share := ZeroOutcome(me, zero_kept, inputs.zero2, inputs.zero3);
        if zero_share.Err? then Err(zero_share.error)
        else
          var mul := MulOutcome(data, mul_kept, inputs.mul);
          if mul.Err? then Err(mul.error)
          else
            var chain_code := ChainLoop(me, data.parameters.share_count, inputs.bip2, inputs.bip3, 1, ZeroChain());
            if chain_code.Err? then Err(chain_code.error)
            else Ok((NewParty(data, poly_point, pk, zero_share.value, mul.value.0, mul.value.1, chain_code.value, address_fn(pk)),
                     PublicKeyPackage(pk, verifying_shares, data.parameters)))
  }

  /** phase4 */
  method Phase4(data: SessionData, poly_point: Scalar, zero_kept: map<PartyIndex, HashOutput>, mul_kept: MulKept,
                inputs: Inputs4, address_fn: Point -> string) returns (r: Result<(Party, PublicKeyPackage), Abort>)
    ensures r == Phase4Outcome(data, poly_point, zero_kept, mul_kept, inputs, address_fn)
  {
    hide Step5Outcome, ZeroOutcome, MulOutcome, ChainLoop;
    var me := data.party_index;
    var key := Step5(data.parameters, me, data.session_id, inputs.pcs);
    if key.Err? {
      return Err(key.error);
    }
    var (pk, verifying_shares) := key.value;
    if pk == IDENTITY || pk == GENERATOR {
      return Err(Recover(me, TrivialPublicKey));
    }
    if poly_point == 0 || poly_point == 1 {
      return Err(Recover(me, TrivialKeyShare));
    }
    var zero_share := FinishZeroShares(me, zero_kept, inputs.zero2, inputs.zero3);
    if zero_share.Err? {
      return Err(zero_share.error);
    }
    var mul := FinishMultiplication(data, mul_kept, inputs.mul);
    if mul.Err? {
      return Err(mul.error);
    }
    var chain_code := FinishChainCode(me, data.parameters.share_count, inputs.bip2, inputs.bip3);
    if chain_code.Err? {
      return Err(chain_code.error);
    }
    var party := NewParty(data, poly_point, pk, zero_share.value, mul.value.0, mul.value.1, chain_code.value, address_fn(pk));
    return Ok((party, PublicKeyPackage(pk, verifying_shares, data.parameters)));
  }

  // MissingMessageFromParty cannot come from the zero-share and multiplication maps

  lemma {:induction false} ZeroLoopNotMissing(me: PartyIndex, kept: map<PartyIndex, HashOutput>, two: Commitments,
                                              three: Openings, i: nat, seeds: seq<SeedPair>)
    requires i >= 1 && two.Keys == three.Keys == kept.Keys
    ensures ZeroLoop(me, kept, two, three, i, seeds).Err? ==>
      ZeroLoop(me, kept, two, three, i, seeds).error.reason.ZeroShareDecommitFailed?
    decreases 256 - i
  {
    if i <= 255 {
      if i !in kept {
        ZeroLoopNotMissing(me, kept, two, three, i + 1, seeds);
      } else if ZeroSeed(me, kept[i], two, three, i).Ok? {
        ZeroLoopNotMissing(me, kept, two, three, i + 1, seeds + [ZeroSeed(me, kept[i], two, three, i).value]);
      }
    }
  }

  lemma {:induction false} MulLoopNotMissing(data: SessionData, kept: MulKept, received: map<PartyIndex, MulBody>, i: nat,
                                             receivers: Receivers, senders: MulSenders)
    requires i >= 1 && received.Keys == kept.Keys
    ensures MulLoop(data, kept, received, i, receivers, senders).Err? ==>
      MulLoop(data, kept, received, i, receivers, senders).error.reason.MultiplicationVerificationFailed?
    decreases 256 - i
  {
    hide MulReceiverOf, MulSenderOf, MulInitSid;
    if i <= 255 {
      if i !in kept {
        MulLoopNotMissing(data, kept, received, i + 1, receivers, senders);
      } else {
        var ends := MulEnds(data, kept[i], received[i], i);
        if ends.Ok? {
          MulLoopNotMissing(data, kept, received, i + 1, receivers[i := ends.value.0], senders[i := ends.value.1]);
        }
      }
    }
  }

  /** The reasons for which a message is turned away before its content is looked at. */
  predicate IsRouting(reason: AbortReason) {
    reason.MisroutedMessage? || reason.UnexpectedSender? || reason.DuplicateSender? || reason.WrongMessageCount?
  }

  lemma {:induction false} CollectedErrors<T>(me: PartyIndex, expected: set<PartyIndex>, received: seq<Transmit<T>>,
                                              by_sender: map<PartyIndex, T>)
    ensures Collected(me, expected, received, by_sender).Err? ==> IsRouting(Collected(me, expected, received, by_sender).error.reason)
    decreases |received|
  {
    if received != [] {
      CollectedErrors(me, expected, received[1..], by_sender[received[0].parties.sender := received[0].body]);
    }
  }

  /** In the zero-share and multiplication parts of phase 4, whatever was received, the only failures are
      routing faults and failed verifications: a missing message cannot be reached. */
  lemma NeverMissing(data: SessionData, zero_kept: map<PartyIndex, HashOutput>, mul_kept: MulKept, inputs: Inputs4)
    ensures var r := ZeroOutcome(data.party_index, zero_kept, inputs.zero2, inputs.zero3);
      r.Err? ==> IsRouting(r.error.reason) || r.error.reason.ZeroShareDecommitFailed?
    ensures var r := MulOutcome(data, mul_kept, inputs.mul);
      r.Err? ==> IsRouting(r.error.reason) || r.error.reason.MultiplicationVerificationFailed?
  {
    hide Collected, ZeroLoop, MulLoop;
    var me := data.party_index;
    CollectedErrors(me, zero_kept.Keys, inputs.zero2, map[]);
    CollectedErrors(me, zero_kept.Keys, inputs.zero3, map[]);
    CollectedErrors(me, mul_kept.Keys, inputs.mul, map[]);
    var two := Collected(me, zero_kept.Keys, inputs.zero2, map[]);
    var three := Collected(me, zero_kept.Keys, inputs.zero3, map[]);
    if two.Ok? && three.Ok? && |two.value| == |zero_kept| && |three.value| == |zero_kept| {
      NobodyMissing(me, zero_kept.Keys, inputs.zero2);
      NobodyMissing(me, zero_kept.Keys, inputs.zero3);
      ZeroLoopNotMissing(me, zero_kept, two.value, three.value, 1, []);
    }
    var mul := Collected(me, mul_kept.Keys, inputs.mul, map[]);
    if mul.Ok? && |mul.value| == |mul_kept| {
      NobodyMissing(me, mul_kept.Keys, inputs.mul);
      MulLoopNotMissing(data, mul_kept, mul.value, 1, map[], map[]);
    }
  }
}
