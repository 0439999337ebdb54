/** What the refresh protocols accept, and what they change: the new bits and seeds of every position, and every field of
    the refreshed party. */
module RefreshAcceptance {
  import opened Outcomes
  import opened PrimeField
  import opened Bits
  import opened PackedBits
  import opened Hashes
  import opened Curve
  import opened OracleTags
  import opened Transpose
  import opened OTExtension
  import opened Multiplication
  import opened Protocols
  import opened ZeroShares
  import opened KeyGenerationSteps
  import opened KeyGeneration
  import opened KeyGenerationFinish
  import opened FastRefresh
  import opened Refresh
  import opened OracleUses
  import opened DkgAcceptance

  // One pair of parties

  /** The digest of position i for the given sender and receiver of the OT extension. */
  ghost function PositionDigest(tag: Bytes, sid: Bytes, i: nat, sender: PartyIndex, receiver: PartyIndex, seed: HashOutput): HashOutput {
    TaggedHash(tag, [sid, BigEndian(i, 2), BigEndian(sender, 2), BigEndian(receiver, 2), seed])
  }

  /** b' of position i: the lowest bit of a digest. */
  ghost predicate PositionBit(sid: Bytes, i: nat, sender: PartyIndex, receiver: PartyIndex, seed: HashOutput) {
    PositionDigest(TAG_REFRESH_FAST_B, sid, i, sender, receiver, seed)[0] % 2 == 1
  }

  /** What me makes of its sender state for them: every bit is XORed with b', every seed with r1' or r0' as the new bit selects,
      and positions from 256 on stay. */
  lemma SenderRefreshed(ote: OTESender, sid: Bytes, me: PartyIndex, them: PartyIndex, seed: HashOutput, i: nat)
    requires |ote.correlation| >= 256 && |ote.seeds| >= 256
    ensures var new_ote := RefreshedSender(ote, sid, me, them, seed);
      && |new_ote.correlation| == |ote.correlation| && |new_ote.seeds| == |ote.seeds|
      && (i < 256 ==>
           var new_bit := ote.correlation[i] != PositionBit(sid, i, me, them, seed);
           && new_ote.correlation[i] == new_bit
           && new_ote.seeds[i] == XorBytes(ote.seeds[i],
                PositionDigest(if new_bit then TAG_REFRESH_FAST_R1 else TAG_REFRESH_FAST_R0, sid, i, me, them, seed)))
      && (256 <= i < |ote.correlation| ==> new_ote.correlation[i] == ote.correlation[i])
      && (256 <= i < |ote.seeds| ==> new_ote.seeds[i] == ote.seeds[i])
  {
    hide XorBytes, Encode;
  }

  /** What me makes of its receiver state for them: both seeds are swapped if b' is set and XORed with r0' and r1'. */
  lemma ReceiverRefreshed(ote: OTEReceiver, sid: Bytes, me: PartyIndex, them: PartyIndex, seed: HashOutput, i: nat)
    requires |ote.seeds0| >= 256 && |ote.seeds1| >= 256
    ensures var new_ote := RefreshedReceiver(ote, sid, me, them, seed);
      && |new_ote.seeds0| == |ote.seeds0| && |new_ote.seeds1| == |ote.seeds1|
      && (i < 256 ==>
           var swapped := PositionBit(sid, i, them, me, seed);
           && new_ote.seeds0[i] == XorBytes(if swapped then ote.seeds1[i] else ote.seeds0[i],
                                            PositionDigest(TAG_REFRESH_FAST_R0, sid, i, them, me, seed))
           && new_ote.seeds1[i] == XorBytes(if swapped then ote.seeds0[i] else ote.seeds1[i],
                                            PositionDigest(TAG_REFRESH_FAST_R1, sid, i, them, me, seed)))
      && (256 <= i < |ote.seeds0| ==> new_ote.seeds0[i] == ote.seeds0[i])
      && (256 <= i < |ote.seeds1| ==> new_ote.seeds1[i] == ote.seeds1[i])
  {
    hide XorBytes, Encode;
  }

  /** The three digests of all positions of all ordered pairs come from different bytes. */
  lemma PositionsSeparated(sid: Bytes, seed: HashOutput, w: nat, i: nat, a: PartyIndex, b: PartyIndex, w': nat, i': nat,
                           a': PartyIndex, b': PartyIndex)
    requires |sid| < Pow256(8) && w < 3 && w' < 3 && i < 256 && i' < 256
    requires (w, i, a, b) != (w', i', a', b')
    ensures Preimage(RefreshMask(w, sid, i, a, b, seed)) != Preimage(RefreshMask(w', sid, i', a', b', seed))
  {
    hide Preimage, Pow256;
    var q, q' := RefreshMask(w, sid, i, a, b, seed), RefreshMask(w', sid, i', a', b', seed);
    MaskBounded(q);
    MaskBounded(q');
    if Preimage(q) == Preimage(q') {
      QueriesSeparated(q, q');
    }
  }

  lemma MaskBounded(q: Query)
    requires q.RefreshMask? && |q.sid| < Pow256(8) && q.which < 3 && |q.seed| == 32
    requires q.index < 0x10000 && q.sender < 0x10000 && q.receiver < 0x10000
    ensures Bounded(q)
  {
    hide Pow256, Ascii, BigEndian;
    SmallLengths();
    var parts := [TagOf(q)] + PartsOf(q);
    TagLengths();
    forall k | 0 <= k < |parts| ensures |parts[k]| < Pow256(8) {
      if k == 0 {
        assert parts[k] == TagOf(q);
      } else {
        assert parts[k] == PartsOf(q)[k - 1];
      }
    }
  }

  lemma SmallLengths()
    ensures Pow256(8) > 100
  {
    assert Pow256(1) == 256 && Pow256(2) == 0x10000;
    GrowingPowers(2, 8);
  }

  lemma {:induction false} GrowingPowers(j: nat, k: nat)
    requires j <= k
    ensures Pow256(j) <= Pow256(k)
    decreases k
  {
    if j < k {
      GrowingPowers(j, k - 1);
    }
  }

  lemma TagLengths()
    ensures |TAG_REFRESH_FAST_R0| == 25 && |TAG_REFRESH_FAST_R1| == 25 && |TAG_REFRESH_FAST_B| == 24
  {}

  // All pairs of the fast refresh

  /** The party holds usable multiplication state for j. */
  ghost predicate HasState(party: Party, j: PartyIndex) {
    && j in party.mul_senders && j in party.mul_receivers
    && |party.mul_senders[j].ote_sender.correlation| >= 256 && |party.mul_senders[j].ote_sender.seeds| >= 256
    && |party.mul_receivers[j].ote_receiver.seeds0| >= 256 && |party.mul_receivers[j].ote_receiver.seeds1| >= 256
  }

  /** Both ends for the pair's counterparty are refreshed with the pair's seed; the gadgets stay. */
  ghost predicate EndsRefreshed(party: Party, sid: Bytes, pair: SeedPair, receivers: Receivers, senders: MulSenders)
    requires HasState(party, pair.index_counterparty)
  {
    var j := pair.index_counterparty;
    && j in senders && j in receivers
    && senders[j].public_gadget == party.mul_senders[j].public_gadget
    && receivers[j].public_gadget == party.mul_receivers[j].public_gadget
    && senders[j].ote_sender == RefreshedSender(party.mul_senders[j].ote_sender, sid, party.party_index, j, pair.seed)
    && receivers[j].ote_receiver == RefreshedReceiver(party.mul_receivers[j].ote_receiver, sid, party.party_index, j, pair.seed)
  }

  ghost predicate Owns(seeds: seq<SeedPair>, j: PartyIndex) {
    exists k :: 0 <= k < |seeds| && seeds[k].index_counterparty == j
  }

  /** The loop over seeds of different counterparties succeeds just when there is state for all of them, and refreshes them
      all. */
  lemma {:induction false} FastLoopDecides(party: Party, sid: Bytes, seeds: seq<SeedPair>, receivers: Receivers, senders: MulSenders)
    requires forall k, m :: 0 <= k < m < |seeds| ==> seeds[k].index_counterparty != seeds[m].index_counterparty
    ensures var r := FastLoop(party, sid, seeds, receivers, senders);
      && (r.Ok? <==> forall k :: 0 <= k < |seeds| ==> HasState(party, seeds[k].index_counterparty))
      && (r.Ok? ==>
           && (forall k :: 0 <= k < |seeds| ==> EndsRefreshed(party, sid, seeds[k], r.value.0, r.value.1))
           && (forall j :: !Owns(seeds, j) ==>
                && (j in r.value.0 <==> j in receivers) && (j in receivers ==> r.value.0[j] == receivers[j])
                && (j in r.value.1 <==> j in senders) && (j in senders ==> r.value.1[j] == senders[j]))
           && (forall j :: Owns(seeds, j) ==> j in r.value.0 && j in r.value.1))
    decreases |seeds|
  {
    hide RefreshedSender, RefreshedReceiver;
    if seeds != [] {
      var pair, rest := seeds[0], seeds[1..];
      var j0 := pair.index_counterparty;
      assert seeds == [pair] + rest;
      forall j ensures Owns(seeds, j) <==> j == j0 || Owns(rest, j) {
        OwnsCons(pair, rest, j);
      }
      FastEndsDecides(party, sid, pair);
      hide FastEnds, HasState;
      if HasState(party, j0) {
        var ends := FastEnds(party, sid, pair).value;
        FastLoopDecides(party, sid, rest, receivers[j0 := ends.1], senders[j0 := ends.0]);
        assert !Owns(rest, j0);
        assert seeds[0] == pair && forall k :: 0 <= k < |rest| ==> rest[k] == seeds[k + 1];
        var r := FastLoop(party, sid, seeds, receivers, senders);
        if r.Ok? {
          forall k | 0 <= k < |seeds| ensures HasState(party, seeds[k].index_counterparty) && EndsRefreshed(party, sid, seeds[k], r.value.0, r.value.1) {
            if k > 0 {
              assert seeds[k] == rest[k - 1];
            }
          }
        }
      }
    }
  }

  lemma OwnsCons(pair: SeedPair, rest: seq<SeedPair>, j: PartyIndex)
    ensures Owns([pair] + rest, j) <==> j == pair.index_counterparty || Owns(rest, j)
  {
    var seeds := [pair] + rest;
    assert seeds[0] == pair;
    if Owns(rest, j) {
      var k :| 0 <= k < |rest| && rest[k].index_counterparty == j;
      assert seeds[k + 1].index_counterparty == j;
    }
  }

  lemma FastEndsDecides(party: Party, sid: Bytes, pair: SeedPair)
    ensures FastEnds(party, sid, pair).Ok? <==> HasState(party, pair.index_counterparty)
    ensures FastEnds(party, sid, pair).Ok? ==>
      var (sender, receiver) := FastEnds(party, sid, pair).value;
      var j := pair.index_counterparty;
      && sender.public_gadget == party.mul_senders[j].public_gadget
      && receiver.public_gadget == party.mul_receivers[j].public_gadget
      && sender.ote_sender == RefreshedSender(party.mul_senders[j].ote_sender, sid, party.party_index, j, pair.seed)
      && receiver.ote_receiver == RefreshedReceiver(party.mul_receivers[j].ote_receiver, sid, party.party_index, j, pair.seed)
  {
    hide RefreshedSender, RefreshedReceiver;
  }

  // The last phases

  /** The committed points are accepted and interpolate to the identity. */
  ghost predicate SharesZero(party: Party, refresh_sid: Bytes, pcs: seq<ProofCommitment>) {
    var key := Step5Outcome(party.parameters, party.party_index, refresh_sid, pcs);
    key.Ok? && key.value.0 == IDENTITY
  }

  /** Only the share, the seeds, the multiplication state and the session id of the party have changed. */
  ghost predicate RefreshedFields(party: Party, after: Party, refresh_sid: Bytes, correction: Scalar) {
    && after.parameters == party.parameters && after.party_index == party.party_index && after.session_id == refresh_sid
    && after.pk == party.pk && after.address == party.address && after.poly_point == Add(party.poly_point, correction)
    && after.derivation_data
       == DerivData(party.derivation_data.depth, party.derivation_data.child_number, party.derivation_data.parent_fingerprint,
                    Add(party.poly_point, correction), party.pk, party.derivation_data.chain_code)
  }

  /** A complete refresh succeeds just when the points share zero, all seed commitments open and all proofs of the set-up are
      accepted. */
  lemma CompleteDecides(party: Party, refresh_sid: Bytes, correction: Scalar, zero_kept: map<PartyIndex, HashOutput>,
                        mul_kept: MulKept, inputs: CompleteInputs)
    ensures var r := CompleteOutcome(party, refresh_sid, correction, zero_kept, mul_kept, inputs);
      var data := SessionData(party.parameters, party.party_index, refresh_sid);
      && (r.Ok? <==>
           && SharesZero(party, refresh_sid, inputs.pcs)
           && OneFromEach(party.party_index, zero_kept.Keys, inputs.zero2) && OneFromEach(party.party_index, zero_kept.Keys, inputs.zero3)
           && AllSeedsOpen(inputs.zero2, inputs.zero3)
           && OneFromEach(party.party_index, mul_kept.Keys, inputs.mul) && AllEndsAccepted(data, mul_kept, inputs.mul))
      && (r.Ok? ==>
           && RefreshedFields(party, r.value, refresh_sid, correction)
           && ZeroOutcome(party.party_index, zero_kept, inputs.zero2, inputs.zero3) == Ok(r.value.zero_share)
           && MulOutcome(data, mul_kept, inputs.mul) == Ok((r.value.mul_receivers, r.value.mul_senders)))
  {
    hide Step5Outcome, ZeroOutcome, MulOutcome, AllSeedsOpen, AllEndsAccepted, OneFromEach;
    ZeroDecides(party.party_index, zero_kept, inputs.zero2, inputs.zero3);
    MulDecides(SessionData(party.parameters, party.party_index, refresh_sid), mul_kept, inputs.mul);
  }

  /** A fast refresh succeeds just when the points share zero, all seed commitments open, and the party holds state for every
      counterparty; all of that state is then refreshed with the new seeds. */
  lemma FastDecides(party: Party, refresh_sid: Bytes, correction: Scalar, zero_kept: map<PartyIndex, HashOutput>, inputs: FastInputs)
    ensures var r := FastOutcome(party, refresh_sid, correction, zero_kept, inputs);
      && (r.Ok? <==>
           && SharesZero(party, refresh_sid, inputs.pcs)
           && OneFromEach(party.party_index, zero_kept.Keys, inputs.zero2) && OneFromEach(party.party_index, zero_kept.Keys, inputs.zero3)
           && AllSeedsOpen(inputs.zero2, inputs.zero3) && forall j :: j in zero_kept ==> HasState(party, j))
      && (r.Ok? ==>
           && RefreshedFields(party, r.value, refresh_sid, correction)
           && ZeroOutcome(party.party_index, zero_kept, inputs.zero2, inputs.zero3) == Ok(r.value.zero_share)
           && r.value.mul_receivers.Keys == r.value.mul_senders.Keys == zero_kept.Keys
           && forall k :: 0 <= k < |r.value.zero_share.seeds| ==>
                && HasState(party, r.value.zero_share.seeds[k].index_counterparty)
                && EndsRefreshed(party, refresh_sid, r.value.zero_share.seeds[k], r.value.mul_receivers, r.value.mul_senders))
  {
    hide Step5Outcome, ZeroOutcome, FastLoop, AllSeedsOpen, OneFromEach, HasState, EndsRefreshed;
    ZeroDecides(party.party_index, zero_kept, inputs.zero2, inputs.zero3);
    var zero := ZeroOutcome(party.party_index, zero_kept, inputs.zero2, inputs.zero3);
    if zero.Ok? {
      SeedOwners(party.party_index, zero_kept, inputs.zero2, inputs.zero3);
      FastLoopDecides(party, refresh_sid, zero.value.seeds, map[], map[]);
    }
  }

  /** The seeds belong to exactly the counterparties for which something was kept. */
  lemma SeedOwners(me: PartyIndex, kept: map<PartyIndex, HashOutput>, received2: seq<Transmit<HashOutput>>,
                   received3: seq<Transmit<ZeroBody3>>)
    requires ZeroOutcome(me, kept, received2, received3).Ok?
    ensures var seeds := ZeroOutcome(me, kept, received2, received3).value.seeds;
      && (forall j :: Owns(seeds, j) <==> j in kept)
      && (forall k :: 0 <= k < |seeds| ==> seeds[k].index_counterparty in kept)
      && (forall j :: j in kept ==> exists k :: 0 <= k < |seeds| && seeds[k].index_counterparty == j)
  {
    hide ZeroOutcome, OneFromEach, AllSeedsOpen;
    ZeroDecides(me, kept, received2, received3);
    var seeds := ZeroOutcome(me, kept, received2, received3).value.seeds;
    forall k | 0 <= k < |seeds| ensures seeds[k].index_counterparty in kept {
      assert MadeFromOne(seeds[k], me, kept, received3);
    }
    forall j | j in kept ensures Owns(seeds, j) {
      assert HasSeed(ZeroShare(seeds), j);
    }
  }
}
