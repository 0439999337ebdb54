/** What the last phase of key generation accepts, part by part, what it makes of it, and whom it names if it does not. */
module DkgAcceptance {
  import opened Outcomes
  import opened PrimeField
  import opened Hashes
  import opened Curve
  import opened OracleTags
  import opened PackedBits
  import opened Sequences
  import opened Proofs
  import opened BaseOT
  import opened OTExtension
  import opened Multiplication
  import opened Protocols
  import opened ZeroShares
  import opened MessageRouting
  import opened KeyGenerationSteps
  import opened KeyGeneration
  import opened KeyGenerationFinish

  // One message from everybody

  /** Exactly one message from each expected sender, all addressed to me. */
  ghost predicate OneFromEach<T>(me: PartyIndex, expected: set<PartyIndex>, received: seq<Transmit<T>>) {
    && (forall k :: 0 <= k < |received| ==> received[k].parties.receiver == me && received[k].parties.sender in expected)
    && (forall k, m :: 0 <= k < m < |received| ==> received[k].parties.sender != received[m].parties.sender)
    && (forall j :: j in expected ==> exists k :: 0 <= k < |received| && received[k].parties.sender == j)
  }

  lemma CollectedAll<T>(me: PartyIndex, expected: set<PartyIndex>, received: seq<Transmit<T>>)
    ensures var r := Collected(me, expected, received, map[]);
      && (r.Ok? && |r.value| == |expected| <==> OneFromEach(me, expected, received))
      && (OneFromEach(me, expected, received) ==>
           && r.value.Keys == expected
           && forall k :: 0 <= k < |received| ==> r.value[received[k].parties.sender] == received[k].body)
  {
    hide Collected;
    CollectedMeaning(me, expected, received, map[]);
    var r := Collected(me, expected, received, map[]);
    if r.Ok? && |r.value| == |expected| {
      NobodyMissing(me, expected, received);
      forall j | j in expected ensures exists k :: 0 <= k < |received| && received[k].parties.sender == j {
        assert j in Senders(received);
      }
    }
    if OneFromEach(me, expected, received) {
      assert Senders(received) == expected;
    }
  }

  /** The fault of the first message that spoils a list: it is not for me, its sender is not expected, or repeated. */
  lemma {:induction false} CollectedFault<T>(me: PartyIndex, expected: set<PartyIndex>, received: seq<Transmit<T>>,
                                             by_sender: map<PartyIndex, T>, k: nat)
    requires k < |received| && WellPlaced(me, expected, received[..k], by_sender.Keys)
    requires !WellPlaced(me, expected, received[..k + 1], by_sender.Keys)
    ensures var parties := received[k].parties;
      Collected(me, expected, received, by_sender)
      == Err(Recover(me, if parties.receiver != me then MisroutedMessage(me, parties.receiver)
                         else if parties.sender !in expected then UnexpectedSender(parties.sender)
                         else DuplicateSender(parties.sender)))
    decreases k
  {
    if k > 0 {
      var rest := received[1..];
      var next := by_sender[received[0].parties.sender := received[0].body];
      assert received[..k][0] == received[0] && received[..k][1..] == rest[..k - 1];
      assert received[..k + 1][0] == received[0] && received[..k + 1][1..] == rest[..k];
      WellPlacedTail(me, expected, received[..k], by_sender.Keys);
      WellPlacedTail(me, expected, received[..k + 1], by_sender.Keys);
      assert next.Keys == by_sender.Keys + {received[0].parties.sender};
      CollectedFault(me, expected, rest, next, k - 1);
    } else {
      assert received[..1] == [received[0]];
    }
  }

  // The seeds

  /** The opening of j's commitment is right. */
  ghost predicate SeedOpens(two: Commitments, three: Openings, j: PartyIndex)
    requires j in two && j in three
  {
    two[j] == TaggedHash(TAG_COMMITMENT, [three[j].salt, three[j].seed])
  }

  /** The pair that me and j share: the XOR of both seeds, with the minus sign at the lower index. */
  ghost predicate SharedSeed(pair: SeedPair, me: PartyIndex, j: PartyIndex, mine: HashOutput, theirs: HashOutput) {
    && pair.index_counterparty == j && (pair.lowest_index <==> me <= j)
    && forall b :: 0 <= b < 32 ==> pair.seed[b] == mine[b] ^ theirs[b]
  }

  lemma ZeroSeedDecides(me: PartyIndex, mine: HashOutput, two: Commitments, three: Openings, j: PartyIndex)
    requires j in two && j in three
    ensures if SeedOpens(two, three, j) then
        ZeroSeed(me, mine, two, three, j).Ok? && SharedSeed(ZeroSeed(me, mine, two, three, j).value, me, j, mine, three[j].seed)
      else
        ZeroSeed(me, mine, two, three, j) == Err(Recover(me, ZeroShareDecommitFailed(j)))
  {}

  /** The seeds are those of the counterparties from i on, in increasing order. */
  ghost predicate SeedsFrom(seeds: seq<SeedPair>, me: PartyIndex, kept: map<PartyIndex, HashOutput>, three: Openings, i: nat) {
    && (forall k :: 0 <= k < |seeds| ==>
         var j := seeds[k].index_counterparty;
         i <= j && j in kept && j in three && SharedSeed(seeds[k], me, j, kept[j], three[j].seed))
    && (forall k, m :: 0 <= k < m < |seeds| ==> seeds[k].index_counterparty < seeds[m].index_counterparty)
    && (forall j :: j in kept && i <= j ==> exists k :: 0 <= k < |seeds| && seeds[k].index_counterparty == j)
  }

  /** All commitments of counterparties from i on open. */
  ghost predicate OpenFrom(kept: map<PartyIndex, HashOutput>, two: Commitments, three: Openings, i: nat)
    requires two.Keys == three.Keys == kept.Keys
  {
    forall j :: j in kept && i <= j ==> SeedOpens(two, three, j)
  }

  /** From i on, j is the lowest counterparty whose commitment does not open. */
  ghost predicate FirstClosed(kept: map<PartyIndex, HashOutput>, two: Commitments, three: Openings, i: nat, j: PartyIndex)
    requires two.Keys == three.Keys == kept.Keys
  {
    j in kept && i <= j && !SeedOpens(two, three, j) && forall h :: h in kept && i <= h < j ==> SeedOpens(two, three, h)
  }

  lemma FromNext(kept: map<PartyIndex, HashOutput>, two: Commitments, three: Openings, i: PartyIndex)
    requires two.Keys == three.Keys == kept.Keys && (i in kept ==> SeedOpens(two, three, i))
    ensures OpenFrom(kept, two, three, i) <==> OpenFrom(kept, two, three, i + 1)
    ensures forall j: PartyIndex :: FirstClosed(kept, two, three, i + 1, j) ==> FirstClosed(kept, two, three, i, j)
  {
    hide SeedOpens;
  }

  /** The loop succeeds just when all commitments from i on open; otherwise it names the lowest one that does not. */
  lemma {:induction false} ZeroLoopDecides(me: PartyIndex, kept: map<PartyIndex, HashOutput>, two: Commitments, three: Openings,
                                           i: nat, seeds: seq<SeedPair>)
    requires i >= 1 && two.Keys == three.Keys == kept.Keys
    ensures var r := ZeroLoop(me, kept, two, three, i, seeds);
      && (r.Ok? <==> OpenFrom(kept, two, three, i))
      && (r.Err? ==> exists j: PartyIndex ::
            FirstClosed(kept, two, three, i, j) && r.error == Recover(me, ZeroShareDecommitFailed(j)))
    decreases 256 - i
  {
    hide ZeroSeed, SeedOpens, SharedSeed;
    if i <= 255 {
      if i in kept {
        ZeroSeedDecides(me, kept[i], two, three, i);
        if SeedOpens(two, three, i) {
          FromNext(kept, two, three, i);
          hide OpenFrom, FirstClosed;
          ZeroLoopDecides(me, kept, two, three, i + 1, seeds + [ZeroSeed(me, kept[i], two, three, i).value]);
        } else {
          assert FirstClosed(kept, two, three, i, i);
        }
      } else {
        FromNext(kept, two, three, i);
        hide OpenFrom, FirstClosed;
        ZeroLoopDecides(me, kept, two, three, i + 1, seeds);
      }
    }
  }

  /** Success appends the shared seeds of the counterparties from i on. */
  lemma {:induction false} ZeroLoopSeeds(me: PartyIndex, kept: map<PartyIndex, HashOutput>, two: Commitments, three: Openings,
                                         i: nat, seeds: seq<SeedPair>)
    returns (made: seq<SeedPair>)
    requires i >= 1 && two.Keys == three.Keys == kept.Keys && ZeroLoop(me, kept, two, three, i, seeds).Ok?
    ensures ZeroLoop(me, kept, two, three, i, seeds).value == seeds + made && SeedsFrom(made, me, kept, three, i)
    decreases 256 - i
  {
    hide ZeroSeed, SeedOpens, SharedSeed;
    if i > 255 {
      made := [];
    } else {
      hide SeedsFrom;
      if i !in kept {
        made := ZeroLoopSeeds(me, kept, two, three, i + 1, seeds);
        SkipSeed(made, me, kept, three, i);
      } else {
        ZeroSeedDecides(me, kept[i], two, three, i);
        var pair := ZeroSeed(me, kept[i], two, three, i).value;
        var rest := ZeroLoopSeeds(me, kept, two, three, i + 1, seeds + [pair]);
        PrependSeed(pair, rest, me, kept, three, i);
        made := [pair] + rest;
        assert seeds + [pair] + rest == seeds + made;
      }
    }
  }

  lemma SkipSeed(seeds: seq<SeedPair>, me: PartyIndex, kept: map<PartyIndex, HashOutput>, three: Openings, i: PartyIndex)
    requires i !in kept && SeedsFrom(seeds, me, kept, three, i + 1)
    ensures SeedsFrom(seeds, me, kept, three, i)
  {
    hide SharedSeed;
    assert forall j :: j in kept && i <= j ==> i + 1 <= j;
  }

  lemma PrependSeed(pair: SeedPair, rest: seq<SeedPair>, me: PartyIndex, kept: map<PartyIndex, HashOutput>, three: Openings,
                    i: PartyIndex)
    requires i in kept && i in three && SharedSeed(pair, me, i, kept[i], three[i].seed)
    requires SeedsFrom(rest, me, kept, three, i + 1)
    ensures SeedsFrom([pair] + rest, me, kept, three, i)
  {
    hide SharedSeed;
    assert pair.index_counterparty == i by { SeedOwner(pair, me, i, kept[i], three[i].seed); }
    var seeds := [pair] + rest;
    forall j | j in kept && i <= j ensures exists k :: 0 <= k < |seeds| && seeds[k].index_counterparty == j {
      if j == i {
        assert seeds[0].index_counterparty == j;
      } else {
        var k :| 0 <= k < |rest| && rest[k].index_counterparty == j;
        assert seeds[k + 1].index_counterparty == j;
      }
    }
  }

  lemma SeedOwner(pair: SeedPair, me: PartyIndex, j: PartyIndex, mine: HashOutput, theirs: HashOutput)
    requires SharedSeed(pair, me, j, mine, theirs)
    ensures pair.index_counterparty == j
  {}

  /** Every opening that arrived matches the commitment that arrived from the same party. */
  ghost predicate AllSeedsOpen(received2: seq<Transmit<HashOutput>>, received3: seq<Transmit<ZeroBody3>>) {
    forall a, b :: 0 <= a < |received2| && 0 <= b < |received3| && received2[a].parties.sender == received3[b].parties.sender ==>
      received2[a].body == TaggedHash(TAG_COMMITMENT, [received3[b].body.salt, received3[b].body.seed])
  }

  /** m opens the seed that the pair is made from. */
  ghost predicate MadeFrom(pair: SeedPair, me: PartyIndex, kept: map<PartyIndex, HashOutput>, m: Transmit<ZeroBody3>) {
    m.parties.sender in kept && SharedSeed(pair, me, m.parties.sender, kept[m.parties.sender], m.body.seed)
  }

  ghost predicate MadeFromOne(pair: SeedPair, me: PartyIndex, kept: map<PartyIndex, HashOutput>, received: seq<Transmit<ZeroBody3>>) {
    exists b :: 0 <= b < |received| && MadeFrom(pair, me, kept, received[b])
  }

  /** The zero-share part accepts just when there is one commitment and one opening from each counterparty and they match;
      the seeds are then the XORs of what was kept and what was opened, in increasing order of the counterparties. */
  lemma ZeroDecides(me: PartyIndex, kept: map<PartyIndex, HashOutput>, received2: seq<Transmit<HashOutput>>,
                    received3: seq<Transmit<ZeroBody3>>)
    ensures var r := ZeroOutcome(me, kept, received2, received3);
      && (r.Ok? <==>
           OneFromEach(me, kept.Keys, received2) && OneFromEach(me, kept.Keys, received3) && AllSeedsOpen(received2, received3))
      && (r.Ok? ==>
           && (forall k :: 0 <= k < |r.value.seeds| ==>
                MadeFromOne(r.value.seeds[k], me, kept, received3))
           && (forall k, m :: 0 <= k < m < |r.value.seeds| ==> r.value.seeds[k].index_counterparty < r.value.seeds[m].index_counterparty)
           && (forall j :: j in kept ==> HasSeed(r.value, j)))
  {
    hide Collected, SharedSeed, SeedOpens, OneFromEach, AllSeedsOpen, ZeroLoop, MadeFromOne, OpenFrom, SeedsFrom,
         HasSeed;
    CollectedAll(me, kept.Keys, received2);
    CollectedAll(me, kept.Keys, received3);
    Sizes(kept);
    if OneFromEach(me, kept.Keys, received2) && OneFromEach(me, kept.Keys, received3) {
      var two := Collected(me, kept.Keys, received2, map[]).value;
      var three := Collected(me, kept.Keys, received3, map[]).value;
      Sizes(two);
      Sizes(three);
      ZeroLoopDecides(me, kept, two, three, 1, []);
      OpensBySender(me, kept, received2, received3, two, three);
      var r := ZeroLoop(me, kept, two, three, 1, []);
      if r.Ok? {
        var made := ZeroLoopSeeds(me, kept, two, three, 1, []);
        assert r.value == made;
        SeedsMade(me, kept, received3, three, r.value);
      }
    }
  }

  lemma Sizes<T>(m: map<PartyIndex, T>)
    ensures |m.Keys| == |m|
  {}

  lemma SeedsMade(me: PartyIndex, kept: map<PartyIndex, HashOutput>, received3: seq<Transmit<ZeroBody3>>, three: Openings,
                  seeds: seq<SeedPair>)
    requires OneFromEach(me, kept.Keys, received3) && SeedsFrom(seeds, me, kept, three, 1)
    requires three.Keys == kept.Keys && forall k :: 0 <= k < |received3| ==> three[received3[k].parties.sender] == received3[k].body
    ensures forall k :: 0 <= k < |seeds| ==> MadeFromOne(seeds[k], me, kept, received3)
    ensures forall k, m :: 0 <= k < m < |seeds| ==> seeds[k].index_counterparty < seeds[m].index_counterparty
    ensures forall j :: j in kept ==> HasSeed(ZeroShare(seeds), j)
  {
    hide SharedSeed;
    forall k | 0 <= k < |seeds| ensures MadeFromOne(seeds[k], me, kept, received3) {
      var j := seeds[k].index_counterparty;
      assert j in kept.Keys;
      var b :| 0 <= b < |received3| && received3[b].parties.sender == j;
      assert MadeFrom(seeds[k], me, kept, received3[b]);
    }
  }

  lemma OpensBySender(me: PartyIndex, kept: map<PartyIndex, HashOutput>, received2: seq<Transmit<HashOutput>>,
                      received3: seq<Transmit<ZeroBody3>>, two: Commitments, three: Openings)
    requires OneFromEach(me, kept.Keys, received2) && OneFromEach(me, kept.Keys, received3) && two.Keys == three.Keys == kept.Keys
    requires forall k :: 0 <= k < |received2| ==> two[received2[k].parties.sender] == received2[k].body
    requires forall k :: 0 <= k < |received3| ==> three[received3[k].parties.sender] == received3[k].body
    ensures AllSeedsOpen(received2, received3) <==> OpenFrom(kept, two, three, 1)
  {
    if OpenFrom(kept, two, three, 1) {
      forall a, b | 0 <= a < |received2| && 0 <= b < |received3| && received2[a].parties.sender == received3[b].parties.sender
        ensures received2[a].body == TaggedHash(TAG_COMMITMENT, [received3[b].body.salt, received3[b].body.seed])
      {
        assert SeedOpens(two, three, received2[a].parties.sender);
      }
    }
    if AllSeedsOpen(received2, received3) {
      forall j | j in kept && 1 <= j ensures SeedOpens(two, three, j) {
        assert j in kept.Keys;
        var a :| 0 <= a < |received2| && received2[a].parties.sender == j;
        var b :| 0 <= b < |received3| && received3[b].parties.sender == j;
      }
    }
  }

  lemma {:induction false} CollectedSize<T>(me: PartyIndex, expected: set<PartyIndex>, received: seq<Transmit<T>>,
                                            by_sender: map<PartyIndex, T>)
    requires Collected(me, expected, received, by_sender).Ok?
    ensures |Collected(me, expected, received, by_sender).value| == |by_sender| + |received|
    decreases |received|
  {
    if received != [] {
      var next := by_sender[received[0].parties.sender := received[0].body];
      Sizes(by_sender);
      Sizes(next);
      assert next.Keys == by_sender.Keys + {received[0].parties.sender};
      CollectedSize(me, expected, received[1..], next);
    }
  }

  /** Well placed messages from too few senders are counted: first the commitments, then the openings. */
  lemma CountNames(me: PartyIndex, kept: map<PartyIndex, HashOutput>, received2: seq<Transmit<HashOutput>>,
                   received3: seq<Transmit<ZeroBody3>>)
    requires WellPlaced(me, kept.Keys, received2, {}) && WellPlaced(me, kept.Keys, received3, {})
    ensures |received2| != |kept| ==>
      ZeroOutcome(me, kept, received2, received3) == Err(Recover(me, WrongMessageCount(|kept|, |received2|)))
    ensures |received2| == |kept| && |received3| != |kept| ==>
      ZeroOutcome(me, kept, received2, received3) == Err(Recover(me, WrongMessageCount(|kept|, |received3|)))
  {
    hide Collected, ZeroLoop;
    var none2: Commitments := map[];
    var none3: Openings := map[];
    assert none2.Keys == {} && none3.Keys == {};
    CollectedMeaning(me, kept.Keys, received2, none2);
    CollectedMeaning(me, kept.Keys, received3, none3);
    CollectedSize(me, kept.Keys, received2, none2);
    CollectedSize(me, kept.Keys, received3, none3);
  }

  // The multiplications

  /** What a party accepts of the other end of one pair, in both directions. */
  ghost predicate EndsAccepted(data: SessionData, kept: KeepMul, body: MulBody, j: PartyIndex) {
    var as_receiver := Ascii("Multiplication protocol") + BigEndian(data.party_index, 1) + BigEndian(j, 1) + data.session_id;
    var as_sender := Ascii("Multiplication protocol") + BigEndian(j, 1) + BigEndian(data.party_index, 1) + data.session_id;
    && SenderBatch(kept.ot_sender, as_receiver, body.seed, body.enc_proofs).Ok?
    && ReceiverBatch(as_sender, kept.vec_r, body.dlog_proof).Ok?
  }

  /** The two ends: the receiver holds both messages of every base OT and the gadget of its own nonce, the sender the chosen
      ones and the gadget of the other nonce. */
  ghost predicate EndsMade(data: SessionData, kept: KeepMul, body: MulBody, j: PartyIndex, receiver: MulReceiver, sender: MulSender)
    requires EndsAccepted(data, kept, body, j)
  {
    var as_receiver := Ascii("Multiplication protocol") + BigEndian(data.party_index, 1) + BigEndian(j, 1) + data.session_id;
    var as_sender := Ascii("Multiplication protocol") + BigEndian(j, 1) + BigEndian(data.party_index, 1) + data.session_id;
    var (m0, m1) := SenderBatch(kept.ot_sender, as_receiver, body.seed, body.enc_proofs).value;
    && receiver.ote_receiver == OTEReceiver(m0, m1) && receiver.public_gadget == Gadget(as_receiver, kept.nonce)
    && sender.ote_sender == OTESender(kept.correlation, ReceiverBatch(as_sender, kept.vec_r, body.dlog_proof).value)
    && sender.public_gadget == Gadget(as_sender, body.nonce)
  }

  lemma MulEndsDecides(data: SessionData, kept: KeepMul, body: MulBody, j: PartyIndex)
    ensures if EndsAccepted(data, kept, body, j) then
        && MulEnds(data, kept, body, j).Ok?
        && EndsMade(data, kept, body, j, MulEnds(data, kept, body, j).value.0, MulEnds(data, kept, body, j).value.1)
      else
        MulEnds(data, kept, body, j) == Err(Recover(data.party_index, MultiplicationVerificationFailed(j)))
  {
    hide SenderBatch, ReceiverBatch, Gadget;
  }

  /** The maps hold the ends of exactly the counterparties below i. */
  ghost predicate EndsBelow(data: SessionData, kept: MulKept, received: map<PartyIndex, MulBody>, i: nat, receivers: Receivers,
                            senders: MulSenders)
  {
    && (forall j :: (j in receivers <==> j in kept && j < i) && (j in senders <==> j in kept && j < i))
    && forall j :: j in kept && j < i ==>
         && j in received && EndsAccepted(data, kept[j], received[j], j)
         && EndsMade(data, kept[j], received[j], j, receivers[j], senders[j])
  }

  /** The loop succeeds just when the ends of all counterparties from i on are accepted; otherwise it names the lowest. */
  lemma {:induction false} MulLoopDecides(data: SessionData, kept: MulKept, received: map<PartyIndex, MulBody>, i: nat,
                                          receivers: Receivers, senders: MulSenders)
    requires i >= 1 && received.Keys == kept.Keys && EndsBelow(data, kept, received, i, receivers, senders)
    ensures var r := MulLoop(data, kept, received, i, receivers, senders);
      && (r.Ok? <==> forall j :: j in kept && i <= j ==> EndsAccepted(data, kept[j], received[j], j))
      && (r.Ok? ==> EndsBelow(data, kept, received, 256, r.value.0, r.value.1))
      && (r.Err? ==>
           exists j ::
             && j in kept && i <= j && !EndsAccepted(data, kept[j], received[j], j)
             && (forall h :: h in kept && i <= h < j ==> EndsAccepted(data, kept[h], received[h], h))
             && r.error == Recover(data.party_index, MultiplicationVerificationFailed(j)))
    decreases 256 - i
  {
    hide MulEnds, EndsAccepted, EndsMade;
    if i > 255 {
    } else if i !in kept {
      assert forall j :: j in kept ==> (j < i + 1 <==> j < i);
      MulLoopDecides(data, kept, received, i + 1, receivers, senders);
      assert forall j :: j in kept && i <= j ==> i + 1 <= j;
    } else {
      MulEndsDecides(data, kept[i], received[i], i);
      if EndsAccepted(data, kept[i], received[i], i) {
        var ends := MulEnds(data, kept[i], received[i], i).value;
        MulLoopDecides(data, kept, received, i + 1, receivers[i := ends.0], senders[i := ends.1]);
        assert forall j :: j in kept && i <= j ==> j == i || i + 1 <= j;
      }
    }
  }

  /** The ends with every sender are accepted. */
  ghost predicate AllEndsAccepted(data: SessionData, kept: MulKept, received: seq<Transmit<MulBody>>) {
    forall k :: 0 <= k < |received| && received[k].parties.sender in kept ==>
      EndsAccepted(data, kept[received[k].parties.sender], received[k].body, received[k].parties.sender)
  }

  /** The multiplication part accepts just when there is one message from each counterparty and the ends with all of them are
      accepted. */
  lemma MulDecides(data: SessionData, kept: MulKept, received: seq<Transmit<MulBody>>)
    ensures var r := MulOutcome(data, kept, received);
      && (r.Ok? <==> OneFromEach(data.party_index, kept.Keys, received) && AllEndsAccepted(data, kept, received))
      && (r.Ok? ==>
           && r.value.0.Keys == r.value.1.Keys == kept.Keys
           && forall k :: 0 <= k < |received| ==>
                var j := received[k].parties.sender;
                && j in kept && EndsAccepted(data, kept[j], received[k].body, j)
                && EndsMade(data, kept[j], received[k].body, j, r.value.0[j], r.value.1[j]))
  {
    hide Collected, EndsAccepted, EndsMade;
    var me := data.party_index;
    CollectedAll(me, kept.Keys, received);
    Sizes(kept);
    if OneFromEach(me, kept.Keys, received) {
      var by_sender := Collected(me, kept.Keys, received, map[]).value;
      Sizes(by_sender);
      MulLoopDecides(data, kept, by_sender, 1, map[], map[]);
      if AllEndsAccepted(data, kept, received) {
        forall j | j in kept && 1 <= j ensures EndsAccepted(data, kept[j], by_sender[j], j) {
          assert j in kept.Keys;
          var k :| 0 <= k < |received| && received[k].parties.sender == j;
        }
      }
      var r := MulLoop(data, kept, by_sender, 1, map[], map[]);
      if r.Ok? {
        forall k | 0 <= k < |received| ensures EndsAccepted(data, kept[received[k].parties.sender], received[k].body, received[k].parties.sender) {
          assert received[k].parties.sender in kept.Keys;
        }
        assert forall j: PartyIndex :: j in kept ==> j < 256;
        assert r.value.0.Keys == kept.Keys && r.value.1.Keys == kept.Keys;
      }
    }
  }

  // The chain code

  /** Party i has committed to and opened its part of the chain code, and the opening is right. */
  ghost predicate ChainOpens(two: Commitments, three: map<PartyIndex, ChainBody3>, i: PartyIndex) {
    i in two && i in three && two[i] == TaggedHash(TAG_COMMITMENT, [three[i].cc_salt, three[i].aux_chain_code])
  }

  /** The XOR of the parts of the parties from i to n onto a start value, byte by byte. */
  ghost function XorOfParts(three: map<PartyIndex, ChainBody3>, i: nat, n: nat, start: ChainCode): ChainCode
    requires 1 <= i && n <= 255
    decreases n + 1 - i
  {
    if i > n then start
    else if i !in three then start
    else XorOfParts(three, i + 1, n, seq(32, b requires 0 <= b < 32 => start[b] ^ three[i].aux_chain_code[b]))
  }

  /** The chain code part accepts just when the parts of all parties open; otherwise it names the lowest that does not. */
  lemma {:induction false} ChainDecides(me: PartyIndex, n: nat, two: Commitments, three: map<PartyIndex, ChainBody3>, i: nat,
                                        start: ChainCode)
    requires i >= 1 && n <= 255
    ensures var r := ChainLoop(me, n, two, three, i, start);
      && (r.Ok? <==> forall j: PartyIndex :: i <= j <= n ==> ChainOpens(two, three, j))
      && (r.Ok? ==> r.value == XorOfParts(three, i, n, start))
      && (r.Err? ==>
           exists j: PartyIndex ::
             && i <= j <= n && !ChainOpens(two, three, j)
             && (forall h: PartyIndex :: i <= h < j ==> ChainOpens(two, three, h))
             && r.error == Recover(me, if j in two && j in three then ChainCodeCommitmentFailed(j) else MissingMessageFromParty(j)))
    decreases n + 1 - i
  {
    if i <= n {
      var party: PartyIndex := i;
      ChainOpensIs(two, three, party);
      hide ChainOpens;
      if ChainOpens(two, three, party) {
        var next := XorBytes(start, three[i].aux_chain_code);
        assert next == seq(32, b requires 0 <= b < 32 => start[b] ^ three[i].aux_chain_code[b]);
        ChainDecides(me, n, two, three, i + 1, next);
      }
    }
  }

  lemma ChainOpensIs(two: Commitments, three: map<PartyIndex, ChainBody3>, i: PartyIndex)
    ensures ChainOpens(two, three, i) <==>
      i in two && i in three && two[i] == Commitment(three[i].aux_chain_code, three[i].cc_salt)
  {}

  // The whole phase

  /** Everything that phase 4 demands. */
  ghost predicate Phase4Accepts(data: SessionData, poly_point: Scalar, zero_kept: map<PartyIndex, HashOutput>, mul_kept: MulKept,
                                inputs: Inputs4)
  {
    var key := Step5Outcome(data.parameters, data.party_index, data.session_id, inputs.pcs);
    && key.Ok? && key.value.0 != IDENTITY && key.value.0 != GENERATOR && poly_point != 0 && poly_point != 1
    && OneFromEach(data.party_index, zero_kept.Keys, inputs.zero2) && OneFromEach(data.party_index, zero_kept.Keys, inputs.zero3)
    && AllSeedsOpen(inputs.zero2, inputs.zero3)
    && OneFromEach(data.party_index, mul_kept.Keys, inputs.mul) && AllEndsAccepted(data, mul_kept, inputs.mul)
    && forall j: PartyIndex :: j <= data.parameters.share_count ==> ChainOpens(inputs.bip2, inputs.bip3, j)
  }

  /** Phase 4 succeeds just when step 5 accepts the points, neither key nor share is trivial, all commitments to seeds and
      chain codes open, there is one message of each kind from each counterparty, and all proofs of the multiplication
      set-up are accepted. Every field of the party is then determined. */
  lemma Phase4Decides(data: SessionData, poly_point: Scalar, zero_kept: map<PartyIndex, HashOutput>, mul_kept: MulKept,
                      inputs: Inputs4, address_fn: Point -> string)
    ensures var r := Phase4Outcome(data, poly_point, zero_kept, mul_kept, inputs, address_fn);
      && (r.Ok? <==> Phase4Accepts(data, poly_point, zero_kept, mul_kept, inputs))
      && (r.Ok? ==>
           var (party, package) := r.value;
           var (pk, shares) := Step5Outcome(data.parameters, data.party_index, data.session_id, inputs.pcs).value;
           var chain_code := XorOfParts(inputs.bip3, 1, data.parameters.share_count, seq(32, _ => 0));
           && package == PublicKeyPackage(pk, shares, data.parameters)
           && ZeroOutcome(data.party_index, zero_kept, inputs.zero2, inputs.zero3) == Ok(party.zero_share)
           && MulOutcome(data, mul_kept, inputs.mul) == Ok((party.mul_receivers, party.mul_senders))
           && party.parameters == data.parameters && party.party_index == data.party_index && party.session_id == data.session_id
           && party.poly_point == poly_point && party.pk == pk && party.address == address_fn(pk)
           && party.derivation_data == DerivData(0, 0, [0, 0, 0, 0], poly_point, pk, chain_code))
    ensures var key := Step5Outcome(data.parameters, data.party_index, data.session_id, inputs.pcs);
      var zero := ZeroOutcome(data.party_index, zero_kept, inputs.zero2, inputs.zero3);
      var mul := MulOutcome(data, mul_kept, inputs.mul);
      var r := Phase4Outcome(data, poly_point, zero_kept, mul_kept, inputs, address_fn);
      && (key.Err? ==> r == Err(key.error))
      && (key.Ok? && (key.value.0 == IDENTITY || key.value.0 == GENERATOR) ==> r == Err(Recover(data.party_index, TrivialPublicKey)))
      && (key.Ok? && key.value.0 != IDENTITY && key.value.0 != GENERATOR ==>
           && (poly_point == 0 || poly_point == 1 ==> r == Err(Recover(data.party_index, TrivialKeyShare)))
           && (poly_point != 0 && poly_point != 1 ==>
                && (zero.Err? ==> r == Err(zero.error)) && (zero.Ok? && mul.Err? ==> r == Err(mul.error))))
  {
    hide Step5Outcome, ZeroOutcome, MulOutcome, ChainLoop, XorOfParts, ChainOpens, AllSeedsOpen, AllEndsAccepted, OneFromEach;
    ZeroDecides(data.party_index, zero_kept, inputs.zero2, inputs.zero3);
    MulDecides(data, mul_kept, inputs.mul);
    ChainDecides(data.party_index, data.parameters.share_count, inputs.bip2, inputs.bip3, 1, ZeroChain());
  }
}
