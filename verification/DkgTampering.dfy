/** Honest runs of key generation in which one opening has been changed: phase 4 rejects it and names the party. */
module DkgTampering {
  import opened Outcomes
  import opened PrimeField
  import opened Hashes
  import opened Curve
  import opened OracleTags
  import opened Sequences
  import opened Protocols
  import opened ZeroShares
  import opened MessageRouting
  import opened KeyGenerationSteps
  import opened KeyGeneration
  import opened KeyGenerationFinish
  import opened KeyGenerationRuns
  import opened DkgAcceptance

  /** The opening m3 matches the commitment m2, if they are from the same party. */
  ghost predicate PairOpens(m2: Transmit<HashOutput>, m3: Transmit<ZeroBody3>) {
    m2.parties.sender == m3.parties.sender ==> m2.body == TaggedHash(TAG_COMMITMENT, [m3.body.salt, m3.body.seed])
  }

  /** If the openings of all counterparties but c match their commitments, the zero-share part fails and names c. */
  lemma ZeroNames(me: PartyIndex, kept: map<PartyIndex, HashOutput>, received2: seq<Transmit<HashOutput>>,
                  received3: seq<Transmit<ZeroBody3>>, a: nat, b: nat)
    requires OneFromEach(me, kept.Keys, received2) && OneFromEach(me, kept.Keys, received3) && a < |received2| && b < |received3|
    requires !PairOpens(received2[a], received3[b])
    requires forall n, m :: 0 <= n < |received2| && 0 <= m < |received3| && m != b ==> PairOpens(received2[n], received3[m])
    ensures ZeroOutcome(me, kept, received2, received3) == Err(Recover(me, ZeroShareDecommitFailed(received3[b].parties.sender)))
  {
    hide Collected, ZeroLoop, SeedsFrom;
    CollectedAll(me, kept.Keys, received2);
    CollectedAll(me, kept.Keys, received3);
    Sizes(kept);
    var two := Collected(me, kept.Keys, received2, map[]).value;
    var three := Collected(me, kept.Keys, received3, map[]).value;
    Sizes(two);
    Sizes(three);
    var c := received3[b].parties.sender;
    forall j | j in kept && j != c ensures SeedOpens(two, three, j) {
      assert j in kept.Keys;
      var a' :| 0 <= a' < |received2| && received2[a'].parties.sender == j;
      var b' :| 0 <= b' < |received3| && received3[b'].parties.sender == j;
      assert PairOpens(received2[a'], received3[b']);
    }
    assert c in kept && !SeedOpens(two, three, c);
    ZeroLoopDecides(me, kept, two, three, 1, []);
  }

  lemma ListsIsOneFromEach<T>(n: nat, i: PartyIndex, order: seq<PartyIndex>, received: seq<Transmit<T>>, expected: set<PartyIndex>)
    requires ListsCounterparties(n, i, order) && |received| == |order| && expected == Elements(order)
    requires forall k :: 0 <= k < |order| ==> received[k].parties == PartiesMessage(order[k], i)
    ensures OneFromEach(i, expected, received)
  {
    forall j | j in expected ensures exists k :: 0 <= k < |received| && received[k].parties.sender == j {
      var k :| 0 <= k < |order| && order[k] == j;
      assert received[k].parties.sender == j;
    }
  }

  /** A changed opening of the seed of one counterparty, if it does not hash to the commitment, makes phase 4 of an otherwise
      honest run fail and name that counterparty. */
  lemma TamperedSeedNamed(run: DkgRun, i: PartyIndex, all: seq<PartyIndex>, order2: seq<PartyIndex>, order3: seq<PartyIndex>,
                          order_mul: seq<PartyIndex>, k: nat, body: ZeroBody3)
    requires ValidDkg(run) && i <= Count(run) && ListsEverybody(Count(run), all)
    requires ListsCounterparties(Count(run), i, order2) && ListsCounterparties(Count(run), i, order3)
    requires ListsCounterparties(Count(run), i, order_mul) && k < |order3|
    requires Commitment(body.seed, body.salt) != Commitment(run.draws(order3[k]).seeds(i), run.draws(order3[k]).salts(i))
    ensures var c := order3[k];
      var honest := Inputs(run, i, all, order2, order3, order_mul);
      Phase4Outcome(DataFor(run, i), Share(run, i), KeptSeeds(run, i), MulKeep(run.draws(i), Others(Count(run), i)),
                    honest.(zero3 := honest.zero3[k := Transmit(PartiesMessage(c, i), body)]), run.address_fn)
      == Err(Recover(i, ZeroShareDecommitFailed(c)))
  {
    hide ValidDkg, Step5Outcome, ZeroOutcome, MulOutcome, ChainLoop, FinalParty, FinalPackage, Share, Others, Commitment;
    Phase4Honest(run, i, all, order2, order3, order_mul);
    BadOpening(run, i, order2, order3, k, body);
  }

  lemma BadOpening(run: DkgRun, i: PartyIndex, order2: seq<PartyIndex>, order3: seq<PartyIndex>, k: nat, body: ZeroBody3)
    requires Count(run) <= 255 && ListsCounterparties(Count(run), i, order2) && ListsCounterparties(Count(run), i, order3) && k < |order3|
    requires Commitment(body.seed, body.salt) != Commitment(run.draws(order3[k]).seeds(i), run.draws(order3[k]).salts(i))
    ensures ZeroOutcome(i, KeptSeeds(run, i), Zero2(run, i, order2), Zero3(run, i, order3)[k := Transmit(PartiesMessage(order3[k], i), body)])
            == Err(Recover(i, ZeroShareDecommitFailed(order3[k])))
  {
    hide ZeroOutcome, KeptSeeds, NoRepeats, PairOpens, OneFromEach, Commitment, Zero2, Zero3, ListsCounterparties;
    BothComplete(run, i, order2, order3, k, body);
    var a := OnlyOneBad(run, i, order2, order3, k, body);
    ZeroNames(i, KeptSeeds(run, i), Zero2(run, i, order2), WithOpening(run, i, order3, k, body), a, k);
  }

  /** The openings that arrive, with the one at position k replaced. */
  ghost function WithOpening(run: DkgRun, i: PartyIndex, order3: seq<PartyIndex>, k: nat, body: ZeroBody3): (m: seq<Transmit<ZeroBody3>>)
    requires k < |order3|
    ensures |m| == |order3|
  {
    Zero3(run, i, order3)[k := Transmit(PartiesMessage(order3[k], i), body)]
  }

  lemma BothComplete(run: DkgRun, i: PartyIndex, order2: seq<PartyIndex>, order3: seq<PartyIndex>, k: nat, body: ZeroBody3)
    requires Count(run) <= 255 && ListsCounterparties(Count(run), i, order2) && ListsCounterparties(Count(run), i, order3) && k < |order3|
    ensures OneFromEach(i, KeptSeeds(run, i).Keys, Zero2(run, i, order2))
    ensures OneFromEach(i, KeptSeeds(run, i).Keys, WithOpening(run, i, order3, k, body))
  {
    hide KeptSeeds, NoRepeats, OneFromEach, Commitment, ListsCounterparties;
    OthersKeys(run, i, order2);
    OthersKeys(run, i, order3);
    ListsIsOneFromEach(Count(run), i, order2, Zero2(run, i, order2), KeptSeeds(run, i).Keys);
    ListsIsOneFromEach(Count(run), i, order3, WithOpening(run, i, order3, k, body), KeptSeeds(run, i).Keys);
  }

  lemma OnlyOneBad(run: DkgRun, i: PartyIndex, order2: seq<PartyIndex>, order3: seq<PartyIndex>, k: nat, body: ZeroBody3)
    returns (a: nat)
    requires ListsCounterparties(Count(run), i, order2) && ListsCounterparties(Count(run), i, order3) && k < |order3|
    requires Commitment(body.seed, body.salt) != Commitment(run.draws(order3[k]).seeds(i), run.draws(order3[k]).salts(i))
    ensures a < |order2| && !PairOpens(Zero2(run, i, order2)[a], WithOpening(run, i, order3, k, body)[k])
    ensures forall n, m :: 0 <= n < |order2| && 0 <= m < |order3| && m != k ==>
      PairOpens(Zero2(run, i, order2)[n], WithOpening(run, i, order3, k, body)[m])
    ensures WithOpening(run, i, order3, k, body)[k].parties.sender == order3[k]
  {
    hide NoRepeats, PairOpens, Commitment, ZeroMessage2;
    assert order3[k] in order3 && order3[k] in order2;
    a :| 0 <= a < |order2| && order2[a] == order3[k];
    OpeningIs(run, i, order3[k], order3[k], body);
    forall n, m | 0 <= n < |order2| && 0 <= m < |order3| && m != k
      ensures PairOpens(Zero2(run, i, order2)[n], WithOpening(run, i, order3, k, body)[m])
    {
      OpeningIs(run, i, order2[n], order3[m], ZeroBody3(run.draws(order3[m]).seeds(i), run.draws(order3[m]).salts(i)));
    }
  }

  /** What the commitment of n makes of an opening that m sends. */
  lemma OpeningIs(run: DkgRun, i: PartyIndex, n: PartyIndex, m: PartyIndex, body: ZeroBody3)
    ensures PairOpens(ZeroMessage2(run.draws(n), n, i), Transmit(PartiesMessage(m, i), body)) <==>
      n != m || Commitment(body.seed, body.salt) == Commitment(run.draws(n).seeds(i), run.draws(n).salts(i))
  {}

  /** The same for the opening of one party's part of the chain code. */
  lemma TamperedChainNamed(run: DkgRun, i: PartyIndex, all: seq<PartyIndex>, order2: seq<PartyIndex>, order3: seq<PartyIndex>,
                           order_mul: seq<PartyIndex>, c: PartyIndex, body: ChainBody3)
    requires ValidDkg(run) && i <= Count(run) && ListsEverybody(Count(run), all)
    requires ListsCounterparties(Count(run), i, order2) && ListsCounterparties(Count(run), i, order3)
    requires ListsCounterparties(Count(run), i, order_mul) && c <= Count(run)
    requires Commitment(body.aux_chain_code, body.cc_salt) != Commitment(run.draws(c).aux_chain_code, run.draws(c).cc_salt)
    ensures var honest := Inputs(run, i, all, order2, order3, order_mul);
      Phase4Outcome(DataFor(run, i), Share(run, i), KeptSeeds(run, i), MulKeep(run.draws(i), Others(Count(run), i)),
                    honest.(bip3 := honest.bip3[c := body]), run.address_fn)
      == Err(Recover(i, ChainCodeCommitmentFailed(c)))
  {
    hide ValidDkg, Step5Outcome, ZeroOutcome, MulOutcome, ChainLoop, FinalParty, FinalPackage, Share, Others, Commitment,
         ChainOpenings, ChainCommitments;
    Phase4Honest(run, i, all, order2, order3, order_mul);
    BadChainOpening(run, i, c, body);
  }

  lemma BadChainOpening(run: DkgRun, me: PartyIndex, c: PartyIndex, body: ChainBody3)
    requires c <= Count(run) <= 255
    requires Commitment(body.aux_chain_code, body.cc_salt) != Commitment(run.draws(c).aux_chain_code, run.draws(c).cc_salt)
    ensures ChainLoop(me, Count(run), ChainCommitments(run), ChainOpenings(run)[c := body], 1, ZeroChain())
            == Err(Recover(me, ChainCodeCommitmentFailed(c)))
  {
    hide ChainLoop, ChainOpens, Commitment, Everybody;
    var two, three := ChainCommitments(run), ChainOpenings(run)[c := body];
    forall j: PartyIndex | j <= Count(run) ensures j in two && j in three && (ChainOpens(two, three, j) <==> j != c) {
      assert j in Everybody(Count(run));
      ChainOpensIs(two, three, j);
    }
    ChainDecides(me, Count(run), two, three, 1, ZeroChain());
    var r := ChainLoop(me, Count(run), two, three, 1, ZeroChain());
    assert !ChainOpens(two, three, c);
    assert r.Err?;
    var j: PartyIndex :|
      && 1 <= j <= Count(run) && !ChainOpens(two, three, j)
      && r.error == Recover(me, if j in two && j in three then ChainCodeCommitmentFailed(j) else MissingMessageFromParty(j));
    assert j == c;
  }
}
