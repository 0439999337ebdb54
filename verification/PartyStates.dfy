/** What a set of parties that jointly hold a key have in common. */
module PartyStates {
  import opened PrimeField
  import opened Polynomials
  import opened Hashes
  import opened Curve
  import opened OTExtension
  import opened Multiplication
  import opened Protocols
  import opened ZeroShares

  type Parties = map<PartyIndex, Party>

  /** The parties are exactly 1 to n. */
  ghost predicate Complete(ps: Parties, n: nat) {
    forall i: PartyIndex :: i in ps <==> i <= n
  }

  /** All parties agree on the public data. */
  ghost predicate SamePublicData(ps: Parties, parameters: ValidParameters, pk: Point, sid: Bytes, chain_code: ChainCode) {
    forall i :: i in ps ==>
      && ps[i].parameters == parameters && ps[i].party_index == i && ps[i].session_id == sid
      && ps[i].pk == ps[i].derivation_data.pk == pk
      && ps[i].derivation_data.chain_code == chain_code
  }

  /** Party i holds p(i), also in its derivation data. */
  ghost predicate SharesOf(ps: Parties, p: seq<Scalar>) {
    forall i :: i in ps ==> ps[i].poly_point == ps[i].derivation_data.poly_point == Eval(p, i)
  }

  ghost function ZeroSharesOf(ps: Parties): map<PartyIndex, ZeroShare> {
    map i | i in ps :: ps[i].zero_share
  }

  /** Both ends of every ordered pair of parties are ready for multiplication. */
  ghost predicate AllPaired(ps: Parties) {
    forall i, j :: i in ps && j in ps && i != j ==>
      j in ps[i].mul_senders && i in ps[j].mul_receivers && Paired(ps[i].mul_senders[j], ps[j].mul_receivers[i])
  }

  /** The parties hold a sharing of p(0) together with everything that signing needs. */
  ghost predicate ConsistentParties(ps: Parties, parameters: ValidParameters, p: seq<Scalar>, sid: Bytes, chain_code: ChainCode) {
    && Complete(ps, parameters.share_count) && |p| == parameters.threshold
    && SamePublicData(ps, parameters, Base(Eval(p, 0)), sid, chain_code)
    && SharesOf(ps, p)
    && PairwiseSeeds(ZeroSharesOf(ps))
    && AllPaired(ps)
  }

  /** All parties stand at the same level of the key tree. */
  ghost predicate SameLevel(ps: Parties, depth: nat) {
    forall i :: i in ps ==> ps[i].derivation_data.depth == depth
  }
}
