/** Types shared by the protocols: parties, parameters, messages and aborts. */
module Protocols {
  import opened PrimeField
  import opened Hashes
  import opened Curve
  import opened Multiplication

  type PartyIndex = i: int | 1 <= i <= 255 witness 1

  datatype Parameters = Parameters(threshold: nat, share_count: nat)

  /** What Parameters::new admits. */
  predicate IsValid(p: Parameters) {
    2 <= p.threshold <= p.share_count <= 255
  }

  type ValidParameters = p: Parameters | IsValid(p) witness Parameters(2, 2)

  datatype PartiesMessage = PartiesMessage(sender: PartyIndex, receiver: PartyIndex)

  /** A message to one counterparty. */
  datatype Transmit<+T> = Transmit(parties: PartiesMessage, body: T)

  type ChainCode = HashOutput

  datatype SeedPair = SeedPair(lowest_index: bool, index_counterparty: PartyIndex, seed: HashOutput)

  datatype ZeroShare = ZeroShare(seeds: seq<SeedPair>)

  /** Levels of the key tree are counted in a u8. */
  type Depth = d: int | 0 <= d <= 255

  datatype DerivData = DerivData(
    depth: Depth, child_number: nat, parent_fingerprint: Bytes, poly_point: Scalar, pk: Point, chain_code: ChainCode)

  datatype Party = Party(
    parameters: ValidParameters, party_index: PartyIndex, session_id: Bytes, poly_point: Scalar, pk: Point,
    zero_share: ZeroShare, mul_senders: map<PartyIndex, MulSender>, mul_receivers: map<PartyIndex, MulReceiver>,
    derivation_data: DerivData, address: string)

  datatype PublicKeyPackage = PublicKeyPackage(
    verifying_key: Point, verifying_shares: map<PartyIndex, Point>, parameters: ValidParameters)

  datatype AbortKind = Recoverable | BanCounterparty(counterparty: PartyIndex)

  datatype AbortReason =
    | InvalidPartyIndex(index: PartyIndex)
    | WrongCounterpartyCount(expected: nat, got: nat)
    | DuplicateCounterparty(index: PartyIndex)
    | SelfInCounterparties
    | MissingMulState(counterparty: PartyIndex)
    | MisroutedMessage(expected_receiver: PartyIndex, actual_receiver: PartyIndex)
    | UnexpectedSender(sender: PartyIndex)
    | DuplicateSender(sender: PartyIndex)
    | WrongMessageCount(expected: nat, got: nat)
    | MissingMessageFromParty(party: PartyIndex)
    | ProofVerificationFailed(counterparty: PartyIndex)
    | CommitmentMismatch(counterparty: PartyIndex)
    | PolynomialInconsistency
    | TrivialInstancePoint(counterparty: PartyIndex)
    | TrivialPublicKey
    | TrivialKeyShare
    | MissingCommittedPoint(party: PartyIndex)
    | OtConsistencyCheckFailed(counterparty: PartyIndex)
    | MultiplicationVerificationFailed(counterparty: PartyIndex)
    | GammaUInconsistency(counterparty: PartyIndex)
    | SignatureVerificationFailed
    | ZeroDenominator
    | LagrangeCoefficientFailed
    | ZeroShareDecommitFailed(counterparty: PartyIndex)
    | ChainCodeCommitmentFailed(party: PartyIndex)
    | PhaseCalledOutOfOrder
    | IndexPanic

  datatype Abort = Abort(index: PartyIndex, kind: AbortKind, reason: AbortReason)

  /** Abort::recoverable */
  function Recover(index: PartyIndex, reason: AbortReason): Abort {
    Abort(index, Recoverable, reason)
  }

  /** Abort::ban */
  function Ban(index: PartyIndex, counterparty: PartyIndex, reason: AbortReason): Abort {
    Abort(index, BanCounterparty(counterparty), reason)
  }
}
