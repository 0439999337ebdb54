/** All states that the parties can reach from a key by refreshing (completely or fast) and deriving children. */
module ReachableStates {
  import opened Outcomes
  import opened PrimeField
  import opened Polynomials
  import opened Hashes
  import opened Curve
  import opened Sequences
  import opened Proofs
  import opened Multiplication
  import opened Protocols
  import opened Paths
  import opened ZeroShares
  import opened PartyStates
  import opened KeyGenerationSteps
  import opened KeyGeneration
  import opened KeyGenerationFinish
  import opened KeyGenerationRuns
  import opened FastRefresh
  import opened Refresh
  import opened Derivation

  /** Who set up the seeds and multiplications (run), the correction of every party, the committed points that every
      party received, and the orders in which its messages arrived. The dealers' polynomials are not restricted. */
  datatype RefreshRun = RefreshRun(
    run: DkgRun, corrections: PartyIndex -> Scalar, pcs: PartyIndex -> seq<ProofCommitment>,
    order2: PartyIndex -> seq<PartyIndex>, order3: PartyIndex -> seq<PartyIndex>, order_mul: PartyIndex -> seq<PartyIndex>)

  /** Every party's messages arrive once, and the broadcast points are the corrections in the exponent. */
  ghost predicate Delivered(parameters: ValidParameters, r: RefreshRun) {
    && r.run.parameters == parameters
    && forall i: PartyIndex :: i <= parameters.share_count ==>
         && ListsCounterparties(parameters.share_count, i, r.order2(i)) && ListsCounterparties(parameters.share_count, i, r.order3(i))
         && ListsCounterparties(parameters.share_count, i, r.order_mul(i))
         && PointsAre(r.pcs(i), parameters.share_count, r.corrections)
  }

  ghost predicate PointsAre(pcs: seq<ProofCommitment>, n: nat, corrections: PartyIndex -> Scalar) {
    forall j: PartyIndex :: j <= n && j in Committed(pcs, map[]) ==> Committed(pcs, map[])[j] == Base(corrections(j))
  }

  /** What phase 4 of the complete refresh gives party i. */
  ghost function CompleteFor(ps: Parties, r: RefreshRun, i: PartyIndex): Result<Party, Abort>
    requires i in ps && Count(r.run) <= 255
  {
    CompleteOutcome(ps[i], r.run.session_id, r.corrections(i), KeptSeeds(r.run, i), MulKeep(r.run.draws(i), Others(Count(r.run), i)),
                    CompleteInputs(r.pcs(i), Zero2(r.run, i, r.order2(i)), Zero3(r.run, i, r.order3(i)), MulIn(r.run, i, r.order_mul(i))))
  }

  ghost function FastFor(ps: Parties, r: RefreshRun, i: PartyIndex): Result<Party, Abort>
    requires i in ps && Count(r.run) <= 255
  {
    FastOutcome(ps[i], r.run.session_id, r.corrections(i), KeptSeeds(r.run, i),
                FastInputs(r.pcs(i), Zero2(r.run, i, r.order2(i)), Zero3(r.run, i, r.order3(i))))
  }

  /** All parties complete a complete refresh. */
  ghost predicate CompleteStep(parameters: ValidParameters, ps: Parties, ps': Parties, r: RefreshRun) {
    && ps'.Keys == ps.Keys && Delivered(parameters, r) && SetUp(r.run)
    && forall i :: i in ps ==> CompleteFor(ps, r, i) == Ok(ps'[i])
  }

  /** All parties complete a fast refresh. */
  ghost predicate FastStep(parameters: ValidParameters, ps: Parties, ps': Parties, r: RefreshRun) {
    && ps'.Keys == ps.Keys && Delivered(parameters, r)
    && forall i :: i in ps ==> FastFor(ps, r, i) == Ok(ps'[i])
  }

  // The key is preserved

  lemma CompleteFields(party: Party, sid: Bytes, c: Scalar, zero_kept: map<PartyIndex, HashOutput>, mul_kept: MulKept,
                       inputs: CompleteInputs)
    requires CompleteOutcome(party, sid, c, zero_kept, mul_kept, inputs).Ok?
    ensures var p := CompleteOutcome(party, sid, c, zero_kept, mul_kept, inputs).value;
      && KeyCheck(party, sid, inputs.pcs).None?
      && p == Refreshed(party, sid, c, p.zero_share, p.mul_receivers, p.mul_senders)
      && ZeroOutcome(party.party_index, zero_kept, inputs.zero2, inputs.zero3) == Ok(p.zero_share)
      && MulOutcome(RefreshData(party, sid), mul_kept, inputs.mul) == Ok((p.mul_receivers, p.mul_senders))
  {
    hide KeyCheck, ZeroOutcome, MulOutcome;
  }

  lemma FastFields(party: Party, sid: Bytes, c: Scalar, zero_kept: map<PartyIndex, HashOutput>, inputs: FastInputs)
    requires FastOutcome(party, sid, c, zero_kept, inputs).Ok?
    ensures var p := FastOutcome(party, sid, c, zero_kept, inputs).value;
      && KeyCheck(party, sid, inputs.pcs).None?
      && p == Refreshed(party, sid, c, p.zero_share, p.mul_receivers, p.mul_senders)
      && ZeroOutcome(party.party_index, zero_kept, inputs.zero2, inputs.zero3) == Ok(p.zero_share)
      && FastLoop(party, sid, p.zero_share.seeds, map[], map[]) == Ok((p.mul_receivers, p.mul_senders))
  {
    hide KeyCheck, ZeroOutcome, FastLoop;
  }

  /** Every party has its share moved by its correction, and the key check of party 1 has passed. */
  ghost predicate Corrected(ps: Parties, ps': Parties, sid: Bytes, corrections: PartyIndex -> Scalar) {
    && ps'.Keys == ps.Keys
    && forall i :: i in ps ==>
         ps'[i] == Refreshed(ps[i], sid, corrections(i), ps'[i].zero_share, ps'[i].mul_receivers, ps'[i].mul_senders)
  }

  /** A sharing of zero moves a sharing to another sharing of the same secret. */
  lemma CorrectedPublicData(ps: Parties, ps': Parties, parameters: ValidParameters, p: seq<Scalar>, sid: Bytes,
                            chain_code: ChainCode, sid': Bytes, corrections: PartyIndex -> Scalar, q: seq<Scalar>)
    requires ConsistentParties(ps, parameters, p, sid, chain_code) && Corrected(ps, ps', sid', corrections)
    requires ZeroSharing(q, parameters.threshold, parameters.share_count, corrections)
    ensures var r := Combine(p, 1, q);
      && Eval(r, 0) == Eval(p, 0) && |r| == parameters.threshold
      && Complete(ps', parameters.share_count) && SharesOf(ps', r)
      && SamePublicData(ps', parameters, Base(Eval(r, 0)), sid', chain_code)
  {
    hide PairwiseSeeds, AllPaired, Eval, Combine;
    var r := Combine(p, 1, q);
    SumAt(p, q, 0);
    Identities(Eval(p, 0));
    forall i | i in ps
      ensures ps'[i].poly_point == ps'[i].derivation_data.poly_point == Eval(r, i)
      ensures ps'[i].parameters == parameters && ps'[i].party_index == i && ps'[i].session_id == sid'
      ensures ps'[i].pk == ps'[i].derivation_data.pk == Base(Eval(r, 0)) && ps'[i].derivation_data.chain_code == chain_code
    {
      SumAt(p, q, i);
    }
  }

  lemma SumAt(p: seq<Scalar>, q: seq<Scalar>, x: Scalar)
    requires |p| == |q|
    ensures |Combine(p, 1, q)| == |p| && Eval(Combine(p, 1, q), x) == Add(Eval(p, x), Eval(q, x))
  {
    EvalCombine(p, 1, q, x);
    Commute(1, Eval(q, x));
    Identities(Eval(q, x));
  }

  // Complete refresh

  lemma CompleteOne(ps: Parties, parameters: ValidParameters, p: seq<Scalar>, sid: Bytes, chain_code: ChainCode,
                    ps': Parties, r: RefreshRun, i: PartyIndex)
    requires ConsistentParties(ps, parameters, p, sid, chain_code) && CompleteStep(parameters, ps, ps', r) && i in ps
    ensures KeyAccepted(ps[i], r.run.session_id, r.pcs(i), r.corrections)
    ensures ps'[i] == Refreshed(ps[i], r.run.session_id, r.corrections(i), ps'[i].zero_share, ps'[i].mul_receivers, ps'[i].mul_senders)
    ensures ps'[i].zero_share == ZeroShare(AgreedSeeds(r.run, i, 1))
    ensures ps'[i].mul_receivers == ReceiversBelow(r.run, i, 256) && ps'[i].mul_senders == SendersBelow(r.run, i, 256)
  {
    hide PairwiseSeeds, AllPaired, SharesOf, Eval, KeyCheck, ZeroOutcome, MulOutcome, Committed, OtProofsAccepted,
         ReceiversBelow, SendersBelow, AgreedSeeds, KeptSeeds, MulKeep, Others, Zero2, Zero3, MulIn,
         ListsCounterparties, CompleteOutcome;
    var run := r.run;
    CompleteFields(ps[i], run.session_id, r.corrections(i), KeptSeeds(run, i), MulKeep(run.draws(i), Others(Count(run), i)),
                   CompleteInputs(r.pcs(i), Zero2(run, i, r.order2(i)), Zero3(run, i, r.order3(i)), MulIn(run, i, r.order_mul(i))));
    ZeroHonest(run, i, r.order2(i), r.order3(i));
    MulHonest(run, i, r.order_mul(i));
  }

  /** After a complete refresh by all parties, whatever the dealers' polynomials were, the parties are consistent again,
      with the same key and chain code, the new session id, and new seeds and multiplications. */
  lemma CompleteKeeps(ps: Parties, parameters: ValidParameters, p: seq<Scalar>, sid: Bytes, chain_code: ChainCode,
                      depth: nat, ps': Parties, r: RefreshRun)
    returns (p': seq<Scalar>)
    requires ConsistentParties(ps, parameters, p, sid, chain_code) && SameLevel(ps, depth) && CompleteStep(parameters, ps, ps', r)
    ensures ConsistentParties(ps', parameters, p', r.run.session_id, chain_code) && SameLevel(ps', depth) && Eval(p', 0) == Eval(p, 0)
  {
    var one := FirstParty(ps, parameters, p, sid, chain_code);
    CompleteOne(ps, parameters, p, sid, chain_code, ps', r, one);
    AcceptanceSharesZero(ps[one], r.run.session_id, r.pcs(one), r.corrections);
    var q: seq<Scalar> :| ZeroSharing(q, ps[one].parameters.threshold, ps[one].parameters.share_count, r.corrections);
    p' := Combine(p, 1, q);
    CompleteParts(ps, parameters, p, sid, chain_code, depth, ps', r);
    hide ConsistentParties, Eval, CompleteStep, SetUp, Corrected, HasAgreedSeeds, HasPairEnds, SameLevel, SamePublicData,
         SharesOf, PairwiseSeeds, AllPaired, ZeroSharing;
    CorrectedPublicData(ps, ps', parameters, p, sid, chain_code, r.run.session_id, r.corrections, q);
    AgreedPairwise(r.run, ps');
    EndsAllPaired(r.run, ps');
    ConsistentFrom(ps', parameters, p', r.run.session_id, chain_code);
  }

  lemma ConsistentFrom(ps: Parties, parameters: ValidParameters, p: seq<Scalar>, sid: Bytes, chain_code: ChainCode)
    requires Complete(ps, parameters.share_count) && |p| == parameters.threshold
    requires SamePublicData(ps, parameters, Base(Eval(p, 0)), sid, chain_code) && SharesOf(ps, p)
    requires PairwiseSeeds(ZeroSharesOf(ps)) && AllPaired(ps)
    ensures ConsistentParties(ps, parameters, p, sid, chain_code)
  {
    hide Complete, SamePublicData, SharesOf, PairwiseSeeds, AllPaired, Eval;
  }

  lemma FirstParty(ps: Parties, parameters: ValidParameters, p: seq<Scalar>, sid: Bytes,
                   chain_code: ChainCode) returns (one: PartyIndex)
    requires ConsistentParties(ps, parameters, p, sid, chain_code)
    ensures one in ps && ps[one].parameters == parameters
  {
    hide PairwiseSeeds, AllPaired, SharesOf, Eval;
    one := 1;
  }

  lemma CompleteParts(ps: Parties, parameters: ValidParameters, p: seq<Scalar>, sid: Bytes, chain_code: ChainCode,
                      depth: nat, ps': Parties, r: RefreshRun)
    requires ConsistentParties(ps, parameters, p, sid, chain_code) && SameLevel(ps, depth) && CompleteStep(parameters, ps, ps', r)
    ensures Corrected(ps, ps', r.run.session_id, r.corrections) && SameLevel(ps', depth)
    ensures Count(r.run) <= 254 && SetUp(r.run) && HasAgreedSeeds(r.run, ps') && HasPairEnds(r.run, ps')
  {
    hide PairwiseSeeds, AllPaired, SharesOf, SamePublicData, Eval, OtProofsAccepted, ReceiversBelow, SendersBelow,
         AgreedSeeds, CompleteFor, KeyAccepted, ListsCounterparties, PointsAre;
    forall i | i in ps
      ensures ps'[i] == Refreshed(ps[i], r.run.session_id, r.corrections(i), ps'[i].zero_share, ps'[i].mul_receivers, ps'[i].mul_senders)
      ensures ps'[i].zero_share == ZeroShare(AgreedSeeds(r.run, i, 1))
      ensures ps'[i].mul_receivers == ReceiversBelow(r.run, i, 256) && ps'[i].mul_senders == SendersBelow(r.run, i, 256)
    {
      CompleteOne(ps, parameters, p, sid, chain_code, ps', r, i);
    }
  }

  // Fast refresh

  /** The loop over the counterparties leaves under every counterparty's index the refreshed ends for its seed. */
  lemma {:induction false} FastLoopMeaning(party: Party, sid: Bytes, seeds: seq<SeedPair>, receivers: Receivers,
                                           senders: MulSenders)
    requires UniqueSeeds(ZeroShare(seeds)) && FastLoop(party, sid, seeds, receivers, senders).Ok?
    ensures var (rs, ss) := FastLoop(party, sid, seeds, receivers, senders).value;
      && (forall j :: j in receivers && !HasSeed(ZeroShare(seeds), j) ==> j in rs && rs[j] == receivers[j])
      && (forall j :: j in senders && !HasSeed(ZeroShare(seeds), j) ==> j in ss && ss[j] == senders[j])
      && (forall k :: 0 <= k < |seeds| ==>
           var j := seeds[k].index_counterparty;
           && j in rs && j in ss && FastEnds(party, sid, seeds[k]) == Ok((ss[j], rs[j])))
  {
    hide FastEnds;
    if seeds != [] {
      var j := seeds[0].index_counterparty;
      var ends := FastEnds(party, sid, seeds[0]).value;
      var rest := seeds[1..];
      assert forall k :: 0 <= k < |rest| ==> rest[k] == seeds[k + 1];
      assert UniqueSeeds(ZeroShare(rest)) by {
        forall k, m | 0 <= k < m < |rest| ensures rest[k].index_counterparty != rest[m].index_counterparty {
          assert seeds[k + 1].index_counterparty != seeds[m + 1].index_counterparty;
        }
      }
      assert !HasSeed(ZeroShare(rest), j);
      FastLoopMeaning(party, sid, rest, receivers[j := ends.1], senders[j := ends.0]);
      forall c | HasSeed(ZeroShare(rest), c) ensures HasSeed(ZeroShare(seeds), c) {
        var k :| 0 <= k < |rest| && rest[k].index_counterparty == c;
        assert seeds[k + 1].index_counterparty == c;
      }
      assert HasSeed(ZeroShare(seeds), j) by { assert seeds[0].index_counterparty == j; }
      forall k | 1 <= k < |seeds| ensures seeds[k] == rest[k - 1] {}
    }
  }

  lemma FastOne(ps: Parties, parameters: ValidParameters, p: seq<Scalar>, sid: Bytes, chain_code: ChainCode, ps': Parties,
                r: RefreshRun, i: PartyIndex)
    requires ConsistentParties(ps, parameters, p, sid, chain_code) && FastStep(parameters, ps, ps', r) && i in ps
    ensures Count(r.run) <= 255 && KeyAccepted(ps[i], r.run.session_id, r.pcs(i), r.corrections)
    ensures ps'[i] == Refreshed(ps[i], r.run.session_id, r.corrections(i), ps'[i].zero_share, ps'[i].mul_receivers, ps'[i].mul_senders)
    ensures ps'[i].zero_share == ZeroShare(AgreedSeeds(r.run, i, 1)) && ps[i].party_index == i
    ensures FastLoop(ps[i], r.run.session_id, AgreedSeeds(r.run, i, 1), map[], map[]) == Ok((ps'[i].mul_receivers, ps'[i].mul_senders))
  {
    hide PairwiseSeeds, AllPaired, SharesOf, Eval, KeyCheck, ZeroOutcome, Committed, AgreedSeeds, KeptSeeds, Zero2, Zero3,
         ListsCounterparties, FastOutcome, FastLoop;
    var run := r.run;
    FastFields(ps[i], run.session_id, r.corrections(i), KeptSeeds(run, i),
               FastInputs(r.pcs(i), Zero2(run, i, r.order2(i)), Zero3(run, i, r.order3(i))));
    ZeroHonest(run, i, r.order2(i), r.order3(i));
  }

  /** The ends that party i holds for party j after a fast refresh. */
  lemma FastEndsOf(ps: Parties, parameters: ValidParameters, p: seq<Scalar>, sid: Bytes, chain_code: ChainCode, ps': Parties,
                   r: RefreshRun, i: PartyIndex, j: PartyIndex)
    requires ConsistentParties(ps, parameters, p, sid, chain_code) && FastStep(parameters, ps, ps', r) && i in ps && j in ps && i != j
    ensures Count(r.run) <= 255 && j in ps'[i].mul_senders && j in ps'[i].mul_receivers
    ensures FastEnds(ps[i], r.run.session_id, AgreedSeed(r.run, i, j)) == Ok((ps'[i].mul_senders[j], ps'[i].mul_receivers[j]))
  {
    FastOne(ps, parameters, p, sid, chain_code, ps', r, i);
    hide PairwiseSeeds, AllPaired, SharesOf, SamePublicData, Eval, FastFor, FastEnds, KeyAccepted, AgreedSeeds, AgreedSeed,
         PointsAre, ListsCounterparties, FastLoop;
    var seeds := AgreedSeeds(r.run, i, 1);
    SeedsOfParty(r.run, i);
    FastLoopMeaning(ps[i], r.run.session_id, seeds, map[], map[]);
    var share := ZeroShare(seeds);
    assert j <= Count(r.run);
    var k := SeedIndex(share, j);
    assert SeedFor(share, j) == seeds[k];
  }

  lemma FastPaired(ps: Parties, parameters: ValidParameters, p: seq<Scalar>, sid: Bytes, chain_code: ChainCode, ps': Parties,
                   r: RefreshRun, i: PartyIndex, j: PartyIndex)
    requires ConsistentParties(ps, parameters, p, sid, chain_code) && FastStep(parameters, ps, ps', r) && i in ps && j in ps && i != j
    ensures j in ps'[i].mul_senders && i in ps'[j].mul_receivers && Paired(ps'[i].mul_senders[j], ps'[j].mul_receivers[i])
  {
    FastEndsOf(ps, parameters, p, sid, chain_code, ps', r, i, j);
    FastEndsOf(ps, parameters, p, sid, chain_code, ps', r, j, i);
    EndsBefore(ps, parameters, p, sid, chain_code, i, j);
    hide ConsistentParties, FastStep, Paired, RefreshedEnds, AgreedSeed;
    SeedsMirrored(r.run, i, j);
    SeedIndexOf(r.run, i, j);
    SeedIndexOf(r.run, j, i);
    RefreshKeepsPairs(ps[i].mul_senders[j], ps[i].mul_receivers[j], ps[j].mul_senders[i], ps[j].mul_receivers[i],
                      r.run.session_id, i, j, AgreedSeed(r.run, i, j).seed);
  }

  lemma EndsBefore(ps: Parties, parameters: ValidParameters, p: seq<Scalar>, sid: Bytes, chain_code: ChainCode,
                   i: PartyIndex, j: PartyIndex)
    requires ConsistentParties(ps, parameters, p, sid, chain_code) && i in ps && j in ps && i != j
    ensures ps[i].party_index == i && ps[j].party_index == j
    ensures j in ps[i].mul_senders && i in ps[j].mul_receivers && Paired(ps[i].mul_senders[j], ps[j].mul_receivers[i])
    ensures i in ps[j].mul_senders && j in ps[i].mul_receivers && Paired(ps[j].mul_senders[i], ps[i].mul_receivers[j])
  {
    hide PairwiseSeeds, SharesOf, Eval, Paired;
  }

  lemma FastParts(ps: Parties, parameters: ValidParameters, p: seq<Scalar>, sid: Bytes, chain_code: ChainCode, depth: nat,
                  ps': Parties, r: RefreshRun)
    requires ConsistentParties(ps, parameters, p, sid, chain_code) && SameLevel(ps, depth) && FastStep(parameters, ps, ps', r)
    ensures Corrected(ps, ps', r.run.session_id, r.corrections) && SameLevel(ps', depth)
    ensures Count(r.run) <= 255 && HasAgreedSeeds(r.run, ps') && AllPaired(ps')
  {
    hide PairwiseSeeds, AllPaired, SharesOf, SamePublicData, Eval, AgreedSeeds, FastFor, KeyAccepted,
         ListsCounterparties, PointsAre, FastLoop, Paired;
    forall i | i in ps
      ensures ps'[i] == Refreshed(ps[i], r.run.session_id, r.corrections(i), ps'[i].zero_share, ps'[i].mul_receivers, ps'[i].mul_senders)
      ensures ps'[i].zero_share == ZeroShare(AgreedSeeds(r.run, i, 1))
    {
      FastOne(ps, parameters, p, sid, chain_code, ps', r, i);
    }
    assert AllPaired(ps') by {
      FastAllPaired(ps, parameters, p, sid, chain_code, ps', r);
    }
  }

  lemma FastAllPaired(ps: Parties, parameters: ValidParameters, p: seq<Scalar>, sid: Bytes, chain_code: ChainCode,
                      ps': Parties, r: RefreshRun)
    requires ConsistentParties(ps, parameters, p, sid, chain_code) && FastStep(parameters, ps, ps', r)
    ensures AllPaired(ps')
  {
    hide ConsistentParties, Delivered, FastFor, Paired;
    forall i: PartyIndex, j: PartyIndex | i in ps' && j in ps' && i != j
      ensures j in ps'[i].mul_senders && i in ps'[j].mul_receivers && Paired(ps'[i].mul_senders[j], ps'[j].mul_receivers[i])
    {
      FastPaired(ps, parameters, p, sid, chain_code, ps', r, i, j);
    }
  }

  /** The same for the fast refresh, where the two ends of every pair re-randomize their OT state independently. */
  lemma FastKeeps(ps: Parties, parameters: ValidParameters, p: seq<Scalar>, sid: Bytes, chain_code: ChainCode, depth: nat,
                  ps': Parties, r: RefreshRun)
    returns (p': seq<Scalar>)
    requires ConsistentParties(ps, parameters, p, sid, chain_code) && SameLevel(ps, depth) && FastStep(parameters, ps, ps', r)
    ensures ConsistentParties(ps', parameters, p', r.run.session_id, chain_code) && SameLevel(ps', depth) && Eval(p', 0) == Eval(p, 0)
  {
    var one := FirstParty(ps, parameters, p, sid, chain_code);
    FastOne(ps, parameters, p, sid, chain_code, ps', r, one);
    AcceptanceSharesZero(ps[one], r.run.session_id, r.pcs(one), r.corrections);
    var q: seq<Scalar> :| ZeroSharing(q, ps[one].parameters.threshold, ps[one].parameters.share_count, r.corrections);
    p' := Combine(p, 1, q);
    FastParts(ps, parameters, p, sid, chain_code, depth, ps', r);
    hide ConsistentParties, Eval, FastStep, Corrected, HasAgreedSeeds, SameLevel, SamePublicData, SharesOf, PairwiseSeeds,
         AllPaired, ZeroSharing;
    CorrectedPublicData(ps, ps', parameters, p, sid, chain_code, r.run.session_id, r.corrections, q);
    AgreedPairwise(r.run, ps');
    ConsistentFrom(ps', parameters, p', r.run.session_id, chain_code);
  }

  // Histories

  /** The parties are consistent, at one level of the key tree. */
  ghost predicate Joint(ps: Parties, parameters: ValidParameters) {
    exists p, sid, chain_code, depth: nat :: ConsistentParties(ps, parameters, p, sid, chain_code) && SameLevel(ps, depth)
  }

  datatype Action =
    | CompleteRefresh(r: RefreshRun)
    | FastRefreshing(r: RefreshRun)
    | Derive(child_number: nat, address_fn: Point -> string)

  ghost predicate Acts(parameters: ValidParameters, ps: Parties, ps': Parties, action: Action) {
    match action
    case CompleteRefresh(r) => CompleteStep(parameters, ps, ps', r)
    case FastRefreshing(r) => FastStep(parameters, ps, ps', r)
    case Derive(child_number, address_fn) => AllDerive(ps, ps', child_number, address_fn)
  }

  /** What one action does to the key: refreshing keeps it, deriving gives the BIP-32 child. */
  ghost predicate KeyMoves(p: seq<Scalar>, chain_code: ChainCode, p': seq<Scalar>, chain_code': ChainCode, action: Action) {
    match action
    case Derive(child_number, _) => CkdPriv(Eval(p, 0), chain_code, child_number) == Ok((Eval(p', 0), chain_code'))
    case _ => Eval(p', 0) == Eval(p, 0) && chain_code' == chain_code
  }

  lemma DeriveKeeps(ps: Parties, parameters: ValidParameters, p: seq<Scalar>, sid: Bytes, chain_code: ChainCode, depth: nat,
                    ps': Parties, child_number: nat, address_fn: Point -> string)
    returns (p': seq<Scalar>, chain_code': ChainCode)
    requires ConsistentParties(ps, parameters, p, sid, chain_code) && SameLevel(ps, depth)
    requires AllDerive(ps, ps', child_number, address_fn)
    ensures depth < MAX_DEPTH && ConsistentParties(ps', parameters, p', sid, chain_code') && SameLevel(ps', depth + 1)
    ensures CkdPriv(Eval(p, 0), chain_code, child_number) == Ok((Eval(p', 0), chain_code'))
  {
    var one := FirstParty(ps, parameters, p, sid, chain_code);
    hide ConsistentParties, CkdPriv, Eval, DeriveParty;
    assert DeriveParty(ps[one], child_number, address_fn) == Ok(ps'[one]);
    DeriveShared(ps, parameters, p, sid, chain_code, depth, child_number, address_fn);
    var reference := CkdPriv(Eval(p, 0), chain_code, child_number).value;
    p' := Raised(p, Sub(reference.0, Eval(p, 0)));
    chain_code' := reference.1;
  }

  /** One action of all parties keeps them consistent. */
  lemma ActionKeeps(ps: Parties, parameters: ValidParameters, p: seq<Scalar>, sid: Bytes, chain_code: ChainCode, depth: nat,
                    ps': Parties, action: Action)
    returns (p': seq<Scalar>, sid': Bytes, chain_code': ChainCode, depth': nat)
    requires ConsistentParties(ps, parameters, p, sid, chain_code) && SameLevel(ps, depth)
    requires Acts(parameters, ps, ps', action)
    ensures ConsistentParties(ps', parameters, p', sid', chain_code') && SameLevel(ps', depth')
    ensures KeyMoves(p, chain_code, p', chain_code', action)
  {
    hide ConsistentParties, CkdPriv, Eval, CompleteStep, FastStep, AllDerive, SameLevel;
    match action
    case CompleteRefresh(r) =>
      p' := CompleteKeeps(ps, parameters, p, sid, chain_code, depth, ps', r);
      sid', chain_code', depth' := r.run.session_id, chain_code, depth;
    case FastRefreshing(r) =>
      p' := FastKeeps(ps, parameters, p, sid, chain_code, depth, ps', r);
      sid', chain_code', depth' := r.run.session_id, chain_code, depth;
    case Derive(child_number, address_fn) =>
      p', chain_code' := DeriveKeeps(ps, parameters, p, sid, chain_code, depth, ps', child_number, address_fn);
      sid', depth' := sid, depth + 1;
  }

  /** Any sequence of actions. */
  ghost predicate IsHistory(parameters: ValidParameters, states: seq<Parties>, actions: seq<Action>) {
    && |states| == |actions| + 1
    && forall k :: 0 <= k < |actions| ==> Acts(parameters, states[k], states[k + 1], actions[k])
  }

  /** Every state that is reachable from consistent parties is consistent. */
  lemma {:induction false} AlwaysJoint(parameters: ValidParameters, states: seq<Parties>, actions: seq<Action>, k: nat)
    requires IsHistory(parameters, states, actions) && Joint(states[0], parameters) && k < |states|
    ensures Joint(states[k], parameters)
  {
    hide ConsistentParties, SameLevel, Acts;
    if k > 0 {
      AlwaysJoint(parameters, states, actions, k - 1);
      var j := k - 1;
      var p, sid, chain_code, depth: nat :|
        ConsistentParties(states[j], parameters, p, sid, chain_code) && SameLevel(states[j], depth);
      assert Acts(parameters, states[j], states[j + 1], actions[j]);
      var p', sid', chain_code', depth' := ActionKeeps(states[j], parameters, p, sid, chain_code, depth, states[k], actions[j]);
    }
  }

  /** Key generation leaves the parties in a state from which such histories start. */
  lemma KeyGenerationJoint(run: DkgRun)
    requires ValidDkg(run)
    ensures Joint(FinalParties(run), run.parameters)
  {
    KeyGenerationConsistent(run);
    assert SameLevel(FinalParties(run), 0) by {
      hide ProofsAccepted, Share, ReceiversBelow, SendersBelow, AgreedSeeds, CommonChainCode;
      ValidIsSetUp(run);
    }
    hide ConsistentParties;
  }

  // Honest refreshes are accepted

  /** Dealers whose constant terms are zero, accepted proofs, and every party told everything. */
  ghost predicate HonestRefresh(parameters: ValidParameters, r: RefreshRun) {
    && Delivered(parameters, r) && HasPolynomials(r.run) && ShareProofsAccepted(r.run) && SetUp(r.run)
    && (forall i: PartyIndex :: i <= Count(r.run) ==> r.run.polynomials(i)[0] == 0)
    && (forall i: PartyIndex :: i <= Count(r.run) ==> HearsAll(r, i))
  }

  /** Party i has received the proof commitments of all parties, in some order. */
  ghost predicate HearsAll(r: RefreshRun, i: PartyIndex) {
    exists order :: ListsEverybody(Count(r.run), order) && r.pcs(i) == Pcs(r.run, order)
  }

  lemma HonestOrders(parameters: ValidParameters, r: RefreshRun, i: PartyIndex)
    requires HonestRefresh(parameters, r) && i <= parameters.share_count
    ensures Count(r.run) == parameters.share_count <= 254 && r.run.parameters == parameters && SetUp(r.run) && Delivered(parameters, r)
    ensures ListsCounterparties(Count(r.run), i, r.order2(i)) && ListsCounterparties(Count(r.run), i, r.order3(i))
    ensures ListsCounterparties(Count(r.run), i, r.order_mul(i))
  {
    hide ListsCounterparties, PointsAre, ShareProofsAccepted, OtProofsAccepted, HearsAll, Share;
  }

  lemma ZeroAtZero(run: DkgRun)
    requires HasPolynomials(run) && forall i: PartyIndex :: i <= Count(run) ==> run.polynomials(i)[0] == 0
    ensures PublicKey(run) == IDENTITY
  {
    var n := Count(run);
    EvalSum(run, n, 0);
    forall k | 0 <= k < n ensures ValuesAt(run, n, 0)[k] == 0 {
      EvalAtZero(run.polynomials(k + 1));
    }
    Sums.SumZeros(ValuesAt(run, n, 0));
  }

  lemma HonestKeyCheck(party: Party, parameters: ValidParameters, r: RefreshRun, i: PartyIndex)
    requires HonestRefresh(parameters, r) && i <= Count(r.run) && party.parameters == parameters && party.party_index == i
    ensures KeyCheck(party, r.run.session_id, r.pcs(i)).None?
  {
    hide ShareProofsAccepted, OtProofsAccepted, Share, Pcs, Step5Outcome, ListsCounterparties, ListsEverybody,
         PointsAre, PublicKey, SharesInExponent;
    assert HearsAll(r, i);
    var order :| ListsEverybody(Count(r.run), order) && r.pcs(i) == Pcs(r.run, order);
    Step5Honest(r.run, i, order);
    ZeroAtZero(r.run);
  }

  /** An honest complete refresh succeeds for every party. */
  lemma HonestComplete(ps: Parties, parameters: ValidParameters, p: seq<Scalar>, sid: Bytes, chain_code: ChainCode,
                       r: RefreshRun, i: PartyIndex)
    requires ConsistentParties(ps, parameters, p, sid, chain_code) && HonestRefresh(parameters, r) && i in ps
    ensures CompleteFor(ps, r, i).Ok?
  {
    PartyBasics(ps, parameters, p, sid, chain_code, i);
    HonestKeyCheck(ps[i], parameters, r, i);
    HonestOrders(parameters, r, i);
    hide ConsistentParties, KeyCheck, ZeroOutcome, MulOutcome, ReceiversBelow, SendersBelow, AgreedSeeds, KeptSeeds, MulKeep,
         Others, Zero2, Zero3, MulIn, ListsCounterparties, HonestRefresh, Delivered, SetUp;
    ZeroHonest(r.run, i, r.order2(i), r.order3(i));
    MulHonest(r.run, i, r.order_mul(i));
  }

  lemma PartyBasics(ps: Parties, parameters: ValidParameters, p: seq<Scalar>, sid: Bytes, chain_code: ChainCode, i: PartyIndex)
    requires ConsistentParties(ps, parameters, p, sid, chain_code) && i in ps
    ensures ps[i].parameters == parameters && ps[i].party_index == i && i <= parameters.share_count
  {
    hide PairwiseSeeds, AllPaired, SharesOf, Eval;
  }

  lemma {:induction false} FastLoopSucceeds(party: Party, sid: Bytes, seeds: seq<SeedPair>, receivers: Receivers,
                                            senders: MulSenders)
    requires forall k :: 0 <= k < |seeds| ==> FastEnds(party, sid, seeds[k]).Ok?
    ensures FastLoop(party, sid, seeds, receivers, senders).Ok?
  {
    hide FastEnds;
    if seeds != [] {
      var ends := FastEnds(party, sid, seeds[0]).value;
      var j := seeds[0].index_counterparty;
      FastLoopSucceeds(party, sid, seeds[1..], receivers[j := ends.1], senders[j := ends.0]);
    }
  }

  lemma FastEndsReady(ps: Parties, parameters: ValidParameters, p: seq<Scalar>, sid: Bytes, chain_code: ChainCode,
                      r: RefreshRun, i: PartyIndex, pair: SeedPair)
    requires ConsistentParties(ps, parameters, p, sid, chain_code) && i in ps && pair.index_counterparty in ps && pair.index_counterparty != i
    ensures FastEnds(ps[i], r.run.session_id, pair).Ok?
  {
    EndsBefore(ps, parameters, p, sid, chain_code, i, pair.index_counterparty);
    hide ConsistentParties, RefreshedEnds;
  }

  /** An honest fast refresh succeeds for every party. */
  lemma HonestFast(ps: Parties, parameters: ValidParameters, p: seq<Scalar>, sid: Bytes, chain_code: ChainCode,
                   r: RefreshRun, i: PartyIndex)
    requires ConsistentParties(ps, parameters, p, sid, chain_code) && HonestRefresh(parameters, r) && i in ps
    ensures FastFor(ps, r, i).Ok?
  {
    PartyBasics(ps, parameters, p, sid, chain_code, i);
    HonestKeyCheck(ps[i], parameters, r, i);
    HonestOrders(parameters, r, i);
    hide ConsistentParties, KeyCheck, ZeroOutcome, AgreedSeeds, KeptSeeds, Zero2, Zero3, ListsCounterparties,
         HonestRefresh, Delivered, SetUp, FastLoop;
    FastSeedsReady(ps, parameters, p, sid, chain_code, r, i);
    ZeroHonest(r.run, i, r.order2(i), r.order3(i));
  }

  lemma FastSeedsReady(ps: Parties, parameters: ValidParameters, p: seq<Scalar>, sid: Bytes, chain_code: ChainCode,
                       r: RefreshRun, i: PartyIndex)
    requires ConsistentParties(ps, parameters, p, sid, chain_code) && r.run.parameters == parameters && i in ps
    ensures FastLoop(ps[i], r.run.session_id, AgreedSeeds(r.run, i, 1), map[], map[]).Ok?
  {
    hide ConsistentParties, AgreedSeeds, FastEnds, FastLoop;
    var seeds := AgreedSeeds(r.run, i, 1);
    forall k | 0 <= k < |seeds| ensures FastEnds(ps[i], r.run.session_id, seeds[k]).Ok? {
      SeedTarget(r.run, i, k);
      Everyone(ps, parameters, p, sid, chain_code);
      FastEndsReady(ps, parameters, p, sid, chain_code, r, i, seeds[k]);
    }
    FastLoopSucceeds(ps[i], r.run.session_id, seeds, map[], map[]);
  }

  lemma SeedTarget(run: DkgRun, i: PartyIndex, k: nat)
    requires Count(run) <= 255 && k < |AgreedSeeds(run, i, 1)|
    ensures AgreedSeeds(run, i, 1)[k].index_counterparty <= Count(run) && AgreedSeeds(run, i, 1)[k].index_counterparty != i
  {
    AgreedSeedsMeaning(run, i, 1);
    hide AgreedSeeds, AgreedSeed, UniqueSeeds;
    var seeds := AgreedSeeds(run, i, 1);
    assert HasSeed(ZeroShare(seeds), seeds[k].index_counterparty);
  }

  lemma Everyone(ps: Parties, parameters: ValidParameters, p: seq<Scalar>, sid: Bytes, chain_code: ChainCode)
    requires ConsistentParties(ps, parameters, p, sid, chain_code)
    ensures Complete(ps, parameters.share_count)
  {
    hide PairwiseSeeds, AllPaired, SharesOf, SamePublicData;
  }
}
