/** Who is banned: only phases 2 and 3 of signing ban a party, it is the sender of a message of that call, and the check of its
    content really failed. Every other abort is recoverable. */
module Bans {
  import opened Outcomes
  import opened PrimeField
  import opened Sums
  import opened PackedBits
  import opened Hashes
  import opened Curve
  import opened Protocols
  import opened PartyStates
  import opened MessageRouting
  import opened ZeroShares
  import opened Multiplication
  import opened MultiplicationAcceptance
  import opened KeyGenerationSteps
  import opened KeyGeneration
  import KeyGenerationFinish
  import opened Refresh
  import Ecdsa
  import opened Signing
  import opened SigningAcceptance

  /** A recoverable abort of party me. */
  predicate OwnFault(a: Abort, me: PartyIndex) {
    a.index == me && a.kind == Recoverable
  }

  // Signing

  /** Message m of phase 1, from c, makes the multiplication fail. */
  ghost predicate BadMultiplication(party: Party, data: SignData, unique: UniqueKeep1to2, key_share: Scalar, draws: SignDraws,
                                    m: TransmitPhase1to2)
  {
    && m.parties.sender in data.counterparties && m.parties.receiver == party.party_index
    && m.parties.sender in party.mul_senders && SenderRunFor(party, data, unique, key_share, draws, m).Err?
  }

  lemma {:induction false} Phase2LoopBans(party: Party, data: SignData, unique: UniqueKeep1to2, kept: Kept1, key_share: Scalar,
                                          draws: SignDraws, received: seq<TransmitPhase1to2>, seen: set<PartyIndex>,
                                          keep: Kept2, transmit: seq<TransmitPhase2to3>)
    ensures var r := Phase2Loop(party, data, unique, kept, key_share, draws, received, seen, keep, transmit);
      r.Err? ==>
        || OwnFault(r.error, party.party_index)
        || exists k :: 0 <= k < |received| && BadMultiplication(party, data, unique, key_share, draws, received[k])
             && r.error == Abort(party.party_index, BanCounterparty(received[k].parties.sender),
                                 MultiplicationVerificationFailed(received[k].parties.sender))
    decreases |received|
  {
    hide Phase2Message, SenderRunFor;
    if received != [] {
      var rest := received[1..];
      assert forall k :: 0 <= k < |rest| ==> rest[k] == received[k + 1];
      Phase2MessageDecides(party, data, unique, kept, key_share, draws, received[0], seen);
      var r := Phase2Message(party, data, unique, kept, key_share, draws, received[0], seen);
      if r.Ok? {
        Phase2LoopBans(party, data, unique, kept, key_share, draws, rest, seen + {received[0].parties.sender},
                       keep[received[0].parties.sender := r.value.0], transmit + [r.value.1]);
      }
    }
  }

  /** Message m of phase 2 opens its commitment and fails the check behind the given reason. */
  ghost predicate BadContent(party: Party, data: SignData, kept: Kept2, m: TransmitPhase2to3, reason: AbortReason) {
    var c := m.parties.sender;
    && c in data.counterparties && m.parties.receiver == party.party_index && c in kept && c in party.mul_receivers
    && PointOpens(kept, m)
    && var d := ReceiverRunFor(party, data, kept, m);
       if d.Err? then reason == MultiplicationVerificationFailed(c)
       else |d.value| == 2 && if !InstanceConsistent(kept, m, d.value) then reason == GammaUInconsistency(c)
                              else reason == OtConsistencyCheckFailed(c) && !ContentAccepted(party, data, kept, m)
  }

  lemma {:induction false} Phase3LoopBans(party: Party, data: SignData, kept: Kept2, received: seq<TransmitPhase2to3>,
                                          seen: set<PartyIndex>, t: Totals)
    ensures var r := Phase3Loop(party, data, kept, received, seen, t);
      r.Err? ==>
        || OwnFault(r.error, party.party_index)
        || exists k :: 0 <= k < |received| && BadContent(party, data, kept, received[k], r.error.reason)
             && r.error.index == party.party_index && r.error.kind == BanCounterparty(received[k].parties.sender)
    decreases |received|
  {
    hide Phase3Content, ReceiverRunFor;
    if received != [] {
      var rest := received[1..];
      assert forall k :: 0 <= k < |rest| ==> rest[k] == received[k + 1];
      var r := Phase3Message(party, data, kept, received[0], seen);
      if r.Ok? {
        AcceptedIsKept(party, data, kept, received[0], seen);
        Phase3LoopBans(party, data, kept, rest, seen + {received[0].parties.sender}, AddMessage(t, kept, received[0], r.value));
      } else {
        MessageBans(party, data, kept, received[0], seen);
      }
    }
  }

  lemma MessageBans(party: Party, data: SignData, kept: Kept2, m: TransmitPhase2to3, seen: set<PartyIndex>)
    requires Phase3Message(party, data, kept, m, seen).Err?
    ensures var a := Phase3Message(party, data, kept, m, seen).error;
      || OwnFault(a, party.party_index)
      || (&& a.index == party.party_index && a.kind == BanCounterparty(m.parties.sender)
          && BadContent(party, data, kept, m, a.reason))
  {
    hide MulReceiverRun2;
    ContentDecides(party, data, kept, m);
  }

  /** Signing bans a party only in phase 2, over a multiplication in which its message failed, and in phase 3, over a message of
      it whose content failed. */
  lemma SigningBans(party: Party, data: SignData, draws: SignDraws, unique1: UniqueKeep1to2, kept1: Kept1,
                    received1: seq<TransmitPhase1to2>, unique2: UniqueKeep2to3, kept2: Kept2, received2: seq<TransmitPhase2to3>,
                    msg: HashOutput, x_coord: nat, received3: seq<Ecdsa.Broadcast3to4>, normalize: bool)
    ensures var r := Phase1Outcome(party, data, draws); r.Err? ==> OwnFault(r.error, party.party_index)
    ensures var r := Phase2Outcome(party, data, unique1, kept1, draws, received1);
      r.Err? ==>
        || OwnFault(r.error, party.party_index)
        || (&& KeyShare(party, data.counterparties, unique1.zeta).Some?
            && exists k :: 0 <= k < |received1|
                 && BadMultiplication(party, data, unique1, KeyShare(party, data.counterparties, unique1.zeta).value, draws, received1[k])
                 && r.error == Abort(party.party_index, BanCounterparty(received1[k].parties.sender),
                                     MultiplicationVerificationFailed(received1[k].parties.sender)))
    ensures var r := Phase3Outcome(party, data, unique2, kept2, received2);
      r.Err? ==>
        || OwnFault(r.error, party.party_index)
        || exists k :: 0 <= k < |received2| && BadContent(party, data, kept2, received2[k], r.error.reason)
             && r.error.index == party.party_index && r.error.kind == BanCounterparty(received2[k].parties.sender)
    ensures var r := Ecdsa.Phase4Outcome(party.party_index, party.pk, msg, x_coord, received3, normalize);
      r.Err? ==> OwnFault(r.error, party.party_index)
  {
    hide Phase1Loop, Phase2Loop, Phase3Loop, KeyShare, FirstFault, BadMultiplication, BadContent, Zeta;
    var key_share := KeyShare(party, data.counterparties, unique1.zeta);
    Phase1LoopRecovers(party, data, draws, data.counterparties, map[], []);
    if key_share.Some? {
      Phase2LoopBans(party, data, unique1, kept1, key_share.value, draws, received1, {}, map[], []);
    }
    Phase3LoopBans(party, data, kept2, received2, {}, InitialTotals(unique2));
  }

  lemma {:induction false} Phase1LoopRecovers(party: Party, data: SignData, draws: SignDraws, cs: seq<PartyIndex>, keep: Kept1,
                                              transmit: seq<TransmitPhase1to2>)
    ensures var r := Phase1Loop(party, data, draws, cs, keep, transmit); r.Err? ==> OwnFault(r.error, party.party_index)
    decreases |cs|
  {
    if cs != [] {
      var r := Phase1Pair(party, data, draws, cs[0]);
      if r.Ok? {
        Phase1LoopRecovers(party, data, draws, cs[1..], keep[cs[0] := r.value.0], transmit + [r.value.1]);
      }
    }
  }

  // Key generation and refresh

  lemma {:induction false} GatheredRecovers(me: PartyIndex, sid: Bytes, pcs: seq<ProofCommitment>, points: map<PartyIndex, Point>)
    ensures var r := Gathered(me, sid, pcs, points); r.Err? ==> OwnFault(r.error, me)
    decreases |pcs|
  {
    hide ProofAccepted;
    if pcs != [] {
      GatheredRecovers(me, sid, pcs[1..], points[pcs[0].index := pcs[0].proof.point]);
    }
  }

  lemma WindowRecovers(me: PartyIndex, committed: map<PartyIndex, Point>, i: nat, t: nat)
    requires 1 <= i && i + t <= 255
    ensures var r := WindowPoint(me, committed, i, t); r.Err? ==> OwnFault(r.error, me)
  {
    hide Sum;
  }

  lemma {:induction false} WindowsRecover(me: PartyIndex, committed: map<PartyIndex, Point>, t: nat, i: nat, last: nat, pk: Point)
    requires 1 <= i
    ensures var r := Windows(me, committed, t, i, last, pk); r.Err? ==> OwnFault(r.error, me)
    decreases last - i
  {
    hide WindowPoint;
    if i <= last && i + t <= 255 {
      WindowRecovers(me, committed, i, t);
      var w := WindowPoint(me, committed, i, t);
      if w.Ok? {
        WindowsRecover(me, committed, t, i + 1, last, if i == 1 then w.value else pk);
      }
    }
  }

  lemma Step5Recovers(parameters: ValidParameters, me: PartyIndex, sid: Bytes, pcs: seq<ProofCommitment>)
    ensures var r := Step5Outcome(parameters, me, sid, pcs); r.Err? ==> OwnFault(r.error, me)
  {
    hide Gathered, Windows;
    GatheredRecovers(me, sid, pcs, map[]);
    var committed := Gathered(me, sid, pcs, map[]);
    if committed.Ok? {
      WindowsRecover(me, committed.value, parameters.threshold, 1, parameters.share_count - parameters.threshold + 1, IDENTITY);
    }
  }

  lemma {:induction false} CollectedRecovers<T>(me: PartyIndex, expected: set<PartyIndex>, received: seq<Transmit<T>>,
                                                by_sender: map<PartyIndex, T>)
    ensures var r := Collected(me, expected, received, by_sender); r.Err? ==> OwnFault(r.error, me)
    decreases |received|
  {
    if received != [] {
      CollectedRecovers(me, expected, received[1..], by_sender[received[0].parties.sender := received[0].body]);
    }
  }

  lemma {:induction false} ZeroLoopRecovers(me: PartyIndex, kept: map<PartyIndex, HashOutput>, two: KeyGenerationFinish.Commitments,
                                            three: KeyGenerationFinish.Openings, i: nat, seeds: seq<SeedPair>)
    requires i >= 1
    ensures var r := KeyGenerationFinish.ZeroLoop(me, kept, two, three, i, seeds); r.Err? ==> OwnFault(r.error, me)
    decreases 256 - i
  {
    if i <= 255 {
      if i !in kept {
        ZeroLoopRecovers(me, kept, two, three, i + 1, seeds);
      } else {
        var pair := KeyGenerationFinish.ZeroSeed(me, kept[i], two, three, i);
        if pair.Ok? {
          ZeroLoopRecovers(me, kept, two, three, i + 1, seeds + [pair.value]);
        }
      }
    }
  }

  lemma ZeroRecovers(me: PartyIndex, kept: map<PartyIndex, HashOutput>, received2: seq<Transmit<HashOutput>>,
                     received3: seq<Transmit<ZeroBody3>>)
    ensures var r := KeyGenerationFinish.ZeroOutcome(me, kept, received2, received3); r.Err? ==> OwnFault(r.error, me)
  {
    hide KeyGenerationFinish.ZeroLoop, Collected;
    CollectedRecovers(me, kept.Keys, received2, map[]);
    CollectedRecovers(me, kept.Keys, received3, map[]);
    var two, three := Collected(me, kept.Keys, received2, map[]), Collected(me, kept.Keys, received3, map[]);
    if two.Ok? && three.Ok? {
      ZeroLoopRecovers(me, kept, two.value, three.value, 1, []);
    }
  }

  lemma {:induction false} MulLoopRecovers(data: SessionData, kept: MulKept, received: map<PartyIndex, MulBody>, i: nat,
                                           receivers: KeyGenerationFinish.Receivers, senders: KeyGenerationFinish.MulSenders)
    requires i >= 1
    ensures var r := KeyGenerationFinish.MulLoop(data, kept, received, i, receivers, senders);
      r.Err? ==> OwnFault(r.error, data.party_index)
    decreases 256 - i
  {
    hide MulReceiverOf, MulSenderOf, MulInitSid;
    if i <= 255 {
      if i !in kept {
        MulLoopRecovers(data, kept, received, i + 1, receivers, senders);
      } else if i in received {
        var ends := KeyGenerationFinish.MulEnds(data, kept[i], received[i], i);
        if ends.Ok? {
          MulLoopRecovers(data, kept, received, i + 1, receivers[i := ends.value.0], senders[i := ends.value.1]);
        }
      }
    }
  }

  lemma MulRecovers(data: SessionData, kept: MulKept, received: seq<Transmit<MulBody>>)
    ensures var r := KeyGenerationFinish.MulOutcome(data, kept, received); r.Err? ==> OwnFault(r.error, data.party_index)
  {
    hide KeyGenerationFinish.MulLoop, Collected;
    CollectedRecovers(data.party_index, kept.Keys, received, map[]);
    var by_sender := Collected(data.party_index, kept.Keys, received, map[]);
    if by_sender.Ok? {
      MulLoopRecovers(data, kept, by_sender.value, 1, map[], map[]);
    }
  }

  lemma {:induction false} ChainRecovers(me: PartyIndex, n: nat, two: KeyGenerationFinish.Commitments,
                                         three: map<PartyIndex, ChainBody3>, i: nat, chain_code: ChainCode)
    requires i >= 1 && n <= 255
    ensures var r := KeyGenerationFinish.ChainLoop(me, n, two, three, i, chain_code); r.Err? ==> OwnFault(r.error, me)
    decreases n + 1 - i
  {
    if i <= n && i in three {
      ChainRecovers(me, n, two, three, i + 1, XorBytes(chain_code, three[i].aux_chain_code));
    }
  }

  /** Key generation never bans. */
  lemma KeyGenerationRecovers(data: SessionData, poly_point: Scalar, zero_kept: map<PartyIndex, HashOutput>, mul_kept: MulKept,
                              inputs: KeyGenerationFinish.Inputs4, address_fn: Point -> string)
    ensures var r := KeyGenerationFinish.Phase4Outcome(data, poly_point, zero_kept, mul_kept, inputs, address_fn);
      r.Err? ==> OwnFault(r.error, data.party_index)
  {
    hide Step5Outcome, KeyGenerationFinish.ZeroOutcome, KeyGenerationFinish.MulOutcome, KeyGenerationFinish.ChainLoop;
    Step5Recovers(data.parameters, data.party_index, data.session_id, inputs.pcs);
    ZeroRecovers(data.party_index, zero_kept, inputs.zero2, inputs.zero3);
    MulRecovers(data, mul_kept, inputs.mul);
    ChainRecovers(data.party_index, data.parameters.share_count, inputs.bip2, inputs.bip3, 1, KeyGenerationFinish.ZeroChain());
  }

  lemma {:induction false} FastLoopRecovers(party: Party, refresh_sid: Bytes, seeds: seq<SeedPair>,
                                            receivers: KeyGenerationFinish.Receivers, senders: KeyGenerationFinish.MulSenders)
    ensures var r := FastLoop(party, refresh_sid, seeds, receivers, senders); r.Err? ==> OwnFault(r.error, party.party_index)
    decreases |seeds|
  {
    if seeds != [] {
      var ends := FastEnds(party, refresh_sid, seeds[0]);
      if ends.Ok? {
        FastLoopRecovers(party, refresh_sid, seeds[1..], receivers[seeds[0].index_counterparty := ends.value.1],
                         senders[seeds[0].index_counterparty := ends.value.0]);
      }
    }
  }

  /** Neither refresh ever bans. */
  lemma RefreshRecovers(party: Party, refresh_sid: Bytes, correction_value: Scalar, zero_kept: map<PartyIndex, HashOutput>,
                        mul_kept: MulKept, complete: CompleteInputs, fast: FastInputs)
    ensures var r := CompleteOutcome(party, refresh_sid, correction_value, zero_kept, mul_kept, complete);
      r.Err? ==> OwnFault(r.error, party.party_index)
    ensures var r := FastOutcome(party, refresh_sid, correction_value, zero_kept, fast);
      r.Err? ==> OwnFault(r.error, party.party_index)
  {
    hide Step5Outcome, KeyGenerationFinish.ZeroOutcome, KeyGenerationFinish.MulOutcome, FastLoop;
    Step5Recovers(party.parameters, party.party_index, refresh_sid, complete.pcs);
    Step5Recovers(party.parameters, party.party_index, refresh_sid, fast.pcs);
    ZeroRecovers(party.party_index, zero_kept, complete.zero2, complete.zero3);
    ZeroRecovers(party.party_index, zero_kept, fast.zero2, fast.zero3);
    MulRecovers(RefreshData(party, refresh_sid), mul_kept, complete.mul);
    var zero_share := KeyGenerationFinish.ZeroOutcome(party.party_index, zero_kept, fast.zero2, fast.zero3);
    if zero_share.Ok? {
      FastLoopRecovers(party, refresh_sid, zero_share.value.seeds, map[], map[]);
    }
  }
}
