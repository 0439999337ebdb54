/** What each of the first three phases of signing accepts, message by message, and what it makes of it. */
module SigningAcceptance {
  import opened Outcomes
  import opened PrimeField
  import opened Sums
  import opened Polynomials
  import opened Hashes
  import opened Curve
  import opened OracleTags
  import opened Sequences
  import opened Transpose
  import opened OTExtension
  import opened Multiplication
  import opened Protocols
  import opened ZeroShares
  import opened Ecdsa
  import opened Signing
  import opened SigningMessages
  import opened SigningAlgebra
  import opened SigningRuns

  // Session ids

  /** The id of the multiplication with the given receiver and sender. */
  ghost function PairId(receiver: PartyIndex, sender: PartyIndex, party: Party, data: SignData): Bytes {
    Ascii("Multiplication protocol") + BigEndian(receiver, 1) + BigEndian(sender, 1)
    + (party.session_id + data.sign_id + party.derivation_data.chain_code)
  }

  lemma PairIdIs(receiver: PartyIndex, sender: PartyIndex, party: Party, data: SignData)
    ensures MulSid(receiver, sender, party, data) == PairId(receiver, sender, party, data)
  {
    hide BigEndian, Ascii;
  }

  lemma IndexByte(a: PartyIndex, b: PartyIndex)
    requires BigEndian(a, 1) == BigEndian(b, 1)
    ensures a == b
  {
    assert Pow256(1) == 256 by { assert Pow256(0) == 1; }
    BigEndianRoundTrip(a, 1);
    BigEndianRoundTrip(b, 1);
  }

  lemma IdParts(prefix: Bytes, a: PartyIndex, b: PartyIndex, rest: Bytes, a': PartyIndex, b': PartyIndex, rest': Bytes)
    requires prefix + BigEndian(a, 1) + BigEndian(b, 1) + rest == prefix + BigEndian(a', 1) + BigEndian(b', 1) + rest'
    ensures a == a' && b == b' && rest == rest'
  {
    hide BigEndian;
    SplitAt(prefix + BigEndian(a, 1) + BigEndian(b, 1), rest, prefix + BigEndian(a', 1) + BigEndian(b', 1), rest');
    SplitAt(prefix + BigEndian(a, 1), BigEndian(b, 1), prefix + BigEndian(a', 1), BigEndian(b', 1));
    SplitAt(prefix, BigEndian(a, 1), prefix, BigEndian(a', 1));
    IndexByte(a, a');
    IndexByte(b, b');
  }

  lemma SplitAt(a: Bytes, b: Bytes, a': Bytes, b': Bytes)
    requires |a| == |a'| && a + b == a' + b'
    ensures a == a' && b == b'
  {
    assert a == (a + b)[..|a|] && b == (a + b)[|a|..];
    assert a' == (a' + b')[..|a|] && b' == (a' + b')[|a|..];
  }

  /** Different ordered pairs, and different sessions, have different ids. */
  lemma PairIdsSeparated(a: PartyIndex, b: PartyIndex, party: Party, data: SignData, a': PartyIndex, b': PartyIndex,
                         party': Party, data': SignData)
    requires MulSid(a, b, party, data) == MulSid(a', b', party', data')
    ensures a == a' && b == b'
    ensures party.session_id + data.sign_id + party.derivation_data.chain_code
            == party'.session_id + data'.sign_id + party'.derivation_data.chain_code
  {
    hide BigEndian, Ascii;
    PairIdIs(a, b, party, data);
    PairIdIs(a', b', party', data');
    IdParts(Ascii("Multiplication protocol"), a, b, party.session_id + data.sign_id + party.derivation_data.chain_code,
            a', b', party'.session_id + data'.sign_id + party'.derivation_data.chain_code);
  }

  // Phase 1

  /** The receiver's state for c has 256 seeds of each kind. */
  ghost predicate SizedState(party: Party, c: PartyIndex)
    requires c in party.mul_receivers
  {
    |party.mul_receivers[c].ote_receiver.seeds0| == |party.mul_receivers[c].ote_receiver.seeds1| == 256
  }

  /** c can be signed with: known, not repeated, another party, with multiplication state of the right size. */
  ghost predicate UsableCounterparty(party: Party, c: PartyIndex) {
    && c <= party.parameters.share_count && c != party.party_index && c in party.mul_senders && c in party.mul_receivers
    && SizedState(party, c)
  }

  /** What phase 1 keeps and sends for c: the receiver's factor, and a commitment to the instance point. */
  ghost predicate Prepared1(party: Party, data: SignData, draws: SignDraws, c: PartyIndex, keep: KeepPhase1to2, m: TransmitPhase1to2)
    requires c in party.mul_receivers
  {
    var d := draws.pairs(c);
    var first := MulReceiverRun1(party.mul_receivers[c], PairId(party.party_index, c, party, data), d.choice_bits, d.noise);
    && first.Ok? && keep == KeepPhase1to2(d.salt, first.value.0, first.value.1)
    && m.parties == PartiesMessage(party.party_index, c) && m.body.mul_transmit == first.value.2
    && m.body.commitment == TaggedHash(TAG_COMMITMENT, [d.salt, PointBytes(Base(draws.instance_key))])
  }

  lemma Phase1PairDecides(party: Party, data: SignData, draws: SignDraws, c: PartyIndex)
    requires c in party.mul_receivers
    ensures Phase1Pair(party, data, draws, c).Ok? <==> SizedState(party, c)
    ensures Phase1Pair(party, data, draws, c).Ok? ==>
      Prepared1(party, data, draws, c, Phase1Pair(party, data, draws, c).value.0, Phase1Pair(party, data, draws, c).value.1)
  {
    hide ReceiverRun1, Kept, Pad, MulSid, PairId;
    PairIdIs(party.party_index, c, party, data);
  }

  /** All of cs have been prepared, and their messages follow in order from position start on. */
  ghost predicate AllPrepared(party: Party, data: SignData, draws: SignDraws, cs: seq<PartyIndex>, keep: Kept1,
                              transmit: seq<TransmitPhase1to2>, start: nat)
  {
    |transmit| == start + |cs| &&
    forall k :: 0 <= k < |cs| ==>
      cs[k] in party.mul_receivers && cs[k] in keep && Prepared1(party, data, draws, cs[k], keep[cs[k]], transmit[start + k])
  }

  lemma {:induction false} Phase1LoopDecides(party: Party, data: SignData, draws: SignDraws, cs: seq<PartyIndex>, keep: Kept1,
                                             transmit: seq<TransmitPhase1to2>)
    requires NoRepeats(cs) && forall c :: c in cs ==> c in party.mul_receivers
    ensures var r := Phase1Loop(party, data, draws, cs, keep, transmit);
      && (r.Ok? <==> forall c :: c in cs ==> SizedState(party, c))
      && (r.Ok? ==>
           && transmit <= r.value.1 && AllPrepared(party, data, draws, cs, r.value.0, r.value.1, |transmit|)
           && (forall c :: c in keep && c !in cs ==> c in r.value.0 && r.value.0[c] == keep[c]))
    decreases |cs|
  {
    hide Phase1Pair, Prepared1, AllPrepared, SizedState, NoRepeats;
    if cs == [] {
      NonePrepared(party, data, draws, keep, transmit);
    } else {
      var c, rest := cs[0], cs[1..];
      assert cs == [c] + rest;
      NoRepeatsCons(c, rest);
      Phase1PairDecides(party, data, draws, c);
      var pair := Phase1Pair(party, data, draws, c);
      if pair.Ok? {
        var keep', transmit' := keep[c := pair.value.0], transmit + [pair.value.1];
        Phase1LoopDecides(party, data, draws, rest, keep', transmit');
        var r := Phase1Loop(party, data, draws, cs, keep, transmit);
        if r.Ok? {
          assert r.value.1[|transmit|] == transmit'[|transmit|] == pair.value.1;
          assert c in keep' && c !in rest;
          MorePrepared(party, data, draws, c, rest, r.value.0, r.value.1, |transmit|);
        }
      }
    }
  }

  lemma NonePrepared(party: Party, data: SignData, draws: SignDraws, keep: Kept1, transmit: seq<TransmitPhase1to2>)
    ensures AllPrepared(party, data, draws, [], keep, transmit, |transmit|)
  {}

  lemma MorePrepared(party: Party, data: SignData, draws: SignDraws, c: PartyIndex, rest: seq<PartyIndex>, keep: Kept1,
                     transmit: seq<TransmitPhase1to2>, start: nat)
    requires AllPrepared(party, data, draws, rest, keep, transmit, start + 1)
    requires c in party.mul_receivers && c in keep && Prepared1(party, data, draws, c, keep[c], transmit[start])
    ensures AllPrepared(party, data, draws, [c] + rest, keep, transmit, start)
  {
    hide Prepared1;
    var cs := [c] + rest;
    forall k | 0 <= k < |cs|
      ensures cs[k] in party.mul_receivers && cs[k] in keep && Prepared1(party, data, draws, cs[k], keep[cs[k]], transmit[start + k])
    {
      if k > 0 {
        assert cs[k] == rest[k - 1];
      }
    }
  }

  lemma {:induction false} NoFaultMeans(party: Party, cs: seq<PartyIndex>, seen: set<PartyIndex>)
    ensures FirstFault(party, cs, seen).None? <==>
      && NoRepeats(cs)
      && forall c :: c in cs ==>
           c !in seen && c <= party.parameters.share_count && c != party.party_index && c in party.mul_senders && c in party.mul_receivers
    decreases |cs|
  {
    if cs != [] {
      var c, rest := cs[0], cs[1..];
      assert cs == [c] + rest;
      NoRepeatsCons(c, rest);
      NoFaultMeans(party, rest, seen + {c});
    }
  }

  /** Phase 1 succeeds just when the party lists t - 1 different usable counterparties and its own index is in range. */
  lemma Phase1Decides(party: Party, data: SignData, draws: SignDraws)
    ensures var r := Phase1Outcome(party, data, draws);
      var cs := data.counterparties;
      && (r.Ok? <==>
           && |cs| == party.parameters.threshold - 1 && party.party_index <= party.parameters.share_count
           && NoRepeats(cs) && forall c :: c in cs ==> UsableCounterparty(party, c))
      && (r.Ok? ==>
           var (unique, kept, transmit) := r.value;
           && unique.instance_key == draws.instance_key && unique.instance_point == Base(draws.instance_key)
           && unique.inversion_mask == draws.inversion_mask
           && (var sid := Ascii("Zero shares protocol") + party.session_id + data.sign_id + party.derivation_data.chain_code;
               unique.zeta == Sub(Sum(PairHashes(party.zero_share, cs, sid, false)), Sum(PairHashes(party.zero_share, cs, sid, true))))
           && AllPrepared(party, data, draws, cs, kept, transmit, 0))
      && (|cs| != party.parameters.threshold - 1 ==>
           r == Err(Recover(party.party_index, WrongCounterpartyCount(party.parameters.threshold - 1, |cs|))))
      && (|cs| == party.parameters.threshold - 1 && party.party_index > party.parameters.share_count ==>
           r == Err(Recover(party.party_index, InvalidPartyIndex(party.party_index))))
  {
    hide Phase1Loop, Zeta, Prepared1, FirstFault, Ascii, AllPrepared, SizedState, PairHashes, Sub, Sum;
    var cs := data.counterparties;
    NoFaultMeans(party, cs, {});
    ZetaIs(party.zero_share, cs, Ascii("Zero shares protocol") + party.session_id + data.sign_id + party.derivation_data.chain_code);
    if NoRepeats(cs) && forall c :: c in cs ==> c in party.mul_receivers {
      Phase1LoopDecides(party, data, draws, cs, map[], []);
    }
  }

  /** Phase 1 names the first counterparty in the list that is unknown, repeated, the party itself, or without state. */
  lemma {:induction false} FaultNames(party: Party, cs: seq<PartyIndex>, seen: set<PartyIndex>, k: nat)
    requires k < |cs| && FirstFault(party, cs[..k], seen).None? && FirstFault(party, cs[..k + 1], seen).Some?
    ensures FirstFault(party, cs, seen)
      == Some(if cs[k] > party.parameters.share_count then InvalidPartyIndex(cs[k])
              else if cs[k] in cs[..k] || cs[k] in seen then DuplicateCounterparty(cs[k])
              else if cs[k] == party.party_index then SelfInCounterparties
              else MissingMulState(cs[k]))
    decreases k
  {
    if k == 0 {
      assert cs[..1] == [cs[0]];
    } else {
      assert cs[..k][0] == cs[0] && cs[..k][1..] == cs[1..][..k - 1];
      assert cs[..k + 1][0] == cs[0] && cs[..k + 1][1..] == cs[1..][..k];
      assert cs[..k] == [cs[0]] + cs[1..][..k - 1];
      FaultNames(party, cs[1..], seen + {cs[0]}, k - 1);
    }
  }

  // Phase 2

  /** The sender's run of the multiplication in which m.parties.sender is the receiver, on the instance key and key share. */
  ghost function SenderRunFor(party: Party, data: SignData, unique: UniqueKeep1to2, key_share: Scalar, draws: SignDraws,
                              m: TransmitPhase1to2): Result<(seq<Scalar>, MulDataToReceiver), MulError>
    requires m.parties.sender in party.mul_senders
  {
    var c := m.parties.sender;
    MulSenderRun(party.mul_senders[c], PairId(c, party.party_index, party, data), [unique.instance_key, key_share],
                 m.body.mul_transmit, draws.pairs(c).a_tilde, draws.pairs(c).a_hat)
  }

  ghost predicate Accepted2(party: Party, data: SignData, unique: UniqueKeep1to2, kept: Kept1, key_share: Scalar,
                            draws: SignDraws, m: TransmitPhase1to2)
  {
    && m.parties.sender in data.counterparties && m.parties.receiver == party.party_index
    && m.parties.sender in kept && m.parties.sender in party.mul_senders
    && SenderRunFor(party, data, unique, key_share, draws, m).Ok?
  }

  /** What phase 2 keeps and answers: both outputs in the exponent, the mask minus the receiver's factor, and the opening. */
  ghost predicate Answered2(party: Party, data: SignData, unique: UniqueKeep1to2, kept: Kept1, key_share: Scalar, draws: SignDraws,
                            m: TransmitPhase1to2, keep: KeepPhase2to3, answer: TransmitPhase2to3)
    requires Accepted2(party, data, unique, kept, key_share, draws, m)
  {
    var c := m.parties.sender;
    var (outputs, message) := SenderRunFor(party, data, unique, key_share, draws, m).value;
    && |outputs| == 2
    && keep == KeepPhase2to3(outputs[0], outputs[1], m.body.commitment, kept[c].mul_keep, kept[c].chi)
    && answer.parties == PartiesMessage(party.party_index, c)
    && answer.body == Body2(Base(outputs[0]), Base(outputs[1]), Sub(unique.inversion_mask, kept[c].chi), Base(key_share),
                            unique.instance_point, kept[c].salt, message)
  }

  lemma Phase2MessageDecides(party: Party, data: SignData, unique: UniqueKeep1to2, kept: Kept1, key_share: Scalar,
                             draws: SignDraws, m: TransmitPhase1to2, seen: set<PartyIndex>)
    ensures var r := Phase2Message(party, data, unique, kept, key_share, draws, m, seen);
      && (r.Ok? <==> Accepted2(party, data, unique, kept, key_share, draws, m) && m.parties.sender !in seen)
      && (r.Ok? ==> Answered2(party, data, unique, kept, key_share, draws, m, r.value.0, r.value.1))
      && (r.Err? ==>
           var (me, c) := (party.party_index, m.parties.sender);
           r.error == if c !in data.counterparties then Recover(me, UnexpectedSender(c))
                      else if m.parties.receiver != me then Recover(me, MisroutedMessage(me, m.parties.receiver))
                      else if c in seen then Recover(me, DuplicateSender(c))
                      else if c !in kept || c !in party.mul_senders then Recover(me, MissingMulState(c))
                      else Ban(me, c, MultiplicationVerificationFailed(c)))
  {
    hide MulSenderRun, MulSid, PairId;
    PairIdIs(m.parties.sender, party.party_index, party, data);
  }

  lemma {:induction false} Phase2LoopDecides(party: Party, data: SignData, unique: UniqueKeep1to2, kept: Kept1, key_share: Scalar,
                                             draws: SignDraws, received: seq<TransmitPhase1to2>, seen: set<PartyIndex>,
                                             keep: Kept2, transmit: seq<TransmitPhase2to3>)
    ensures var r := Phase2Loop(party, data, unique, kept, key_share, draws, received, seen, keep, transmit);
      && (r.Ok? <==>
           && (forall m :: m in received ==> Accepted2(party, data, unique, kept, key_share, draws, m) && m.parties.sender !in seen)
           && NoRepeats(Mapped(SenderOf1, received)))
      && (r.Ok? ==>
           && |r.value.1| == |transmit| + |received| && transmit <= r.value.1
           && (forall k :: 0 <= k < |received| ==>
                && received[k].parties.sender in r.value.0 && Accepted2(party, data, unique, kept, key_share, draws, received[k])
                && Answered2(party, data, unique, kept, key_share, draws, received[k], r.value.0[received[k].parties.sender],
                             r.value.1[|transmit| + k]))
           && (forall c :: c in keep && c in seen ==> c in r.value.0 && r.value.0[c] == keep[c]))
    decreases |received|
  {
    hide Phase2Message, Accepted2, Answered2;
    if received != [] {
      var m, rest := received[0], received[1..];
      var c := m.parties.sender;
      assert received == [m] + rest;
      Phase2MessageDecides(party, data, unique, kept, key_share, draws, m, seen);
      MappedCons(SenderOf1, received);
      assert SenderOf1(m) == c;
      NoRepeatsCons(c, Mapped(SenderOf1, rest));
      SenderIn1(rest, c);
      var r1 := Phase2Message(party, data, unique, kept, key_share, draws, m, seen);
      if r1.Ok? {
        Phase2LoopDecides(party, data, unique, kept, key_share, draws, rest, seen + {c}, keep[c := r1.value.0], transmit + [r1.value.1]);
        var r := Phase2Loop(party, data, unique, kept, key_share, draws, received, seen, keep, transmit);
        if r.Ok? {
          assert r.value.1[|transmit|] == (transmit + [r1.value.1])[|transmit|];
          forall k | 0 <= k < |received|
            ensures received[k].parties.sender in r.value.0 && Accepted2(party, data, unique, kept, key_share, draws, received[k])
            ensures Answered2(party, data, unique, kept, key_share, draws, received[k], r.value.0[received[k].parties.sender],
                              r.value.1[|transmit| + k])
          {
            if k > 0 {
              assert received[k] == rest[k - 1];
            }
          }
        }
      }
    }
  }

  lemma SenderIn1(received: seq<TransmitPhase1to2>, c: PartyIndex)
    ensures c in Mapped(SenderOf1, received) <==> exists m :: m in received && m.parties.sender == c
  {
    if m :| m in received && m.parties.sender == c {
      var i :| 0 <= i < |received| && received[i] == m;
      assert Mapped(SenderOf1, received)[i] == SenderOf1(m) == c;
    }
    if c in Mapped(SenderOf1, received) {
      var i :| 0 <= i < |received| && Mapped(SenderOf1, received)[i] == c;
      assert SenderOf1(received[i]) == c && received[i] in received;
    }
  }

  /** Phase 2 succeeds just when the party does not list itself, there is one message from each of as many counterparties as it
      lists, and the multiplication with each of them is accepted. */
  lemma Phase2Decides(party: Party, data: SignData, unique: UniqueKeep1to2, kept: Kept1, draws: SignDraws,
                      received: seq<TransmitPhase1to2>)
    ensures var r := Phase2Outcome(party, data, unique, kept, draws, received);
      var cs := data.counterparties;
      var share := KeyShare(party, cs, unique.zeta);
      && (share.Some? <==> party.party_index !in cs)
      && (r.Ok? <==>
           && share.Some? && |received| == |cs| && NoRepeats(Mapped(SenderOf1, received))
           && forall m :: m in received ==> Accepted2(party, data, unique, kept, share.value, draws, m))
      && (r.Ok? ==>
           var (unique', keep, transmit) := r.value;
           && unique' == UniqueKeep2to3(unique.instance_key, unique.instance_point, unique.inversion_mask, share.value, Base(share.value))
           && |transmit| == |received|
           && forall k :: 0 <= k < |received| ==>
                && received[k].parties.sender in keep && Accepted2(party, data, unique, kept, share.value, draws, received[k])
                && Answered2(party, data, unique, kept, share.value, draws, received[k], keep[received[k].parties.sender], transmit[k]))
      && (share.None? ==> r == Err(Recover(party.party_index, LagrangeCoefficientFailed)))
      && (share.Some? && |received| != |cs| ==> r == Err(Recover(party.party_index, WrongMessageCount(|cs|, |received|))))
  {
    hide Phase2Loop, Accepted2, Answered2, LagrangeDenominator;
    DenominatorZero(party.party_index, data.counterparties);
    var share := KeyShare(party, data.counterparties, unique.zeta);
    if share.Some? {
      Phase2LoopDecides(party, data, unique, kept, share.value, draws, received, {}, map[], []);
    }
  }

  // Phase 3

  /** The receiver's run of the multiplication with the sender of m. */
  ghost function ReceiverRunFor(party: Party, data: SignData, kept: Kept2, m: TransmitPhase2to3): Result<seq<Scalar>, MulError>
    requires m.parties.sender in kept && m.parties.sender in party.mul_receivers
  {
    var c := m.parties.sender;
    MulReceiverRun2(party.mul_receivers[c], PairId(party.party_index, c, party, data), kept[c].mul_keep, m.body.mul_transmit)
  }

  /** The instance point of m is the one committed to. */
  ghost predicate PointOpens(kept: Kept2, m: TransmitPhase2to3)
    requires m.parties.sender in kept
  {
    kept[m.parties.sender].commitment == TaggedHash(TAG_COMMITMENT, [m.body.salt, PointBytes(m.body.instance_point)])
  }

  /** chi R_j == d_u G + Gamma_u: the sender used the instance key behind its instance point. */
  ghost predicate InstanceConsistent(kept: Kept2, m: TransmitPhase2to3, d: seq<Scalar>)
    requires m.parties.sender in kept && |d| == 2
  {
    Times(m.body.instance_point, kept[m.parties.sender].chi) == Plus(Base(d[0]), m.body.gamma_u)
  }

  /** chi P_j == d_v G + Gamma_v: the sender used the key share behind its public share. */
  ghost predicate ShareConsistent(kept: Kept2, m: TransmitPhase2to3, d: seq<Scalar>)
    requires m.parties.sender in kept && |d| == 2
  {
    Times(m.body.public_share, kept[m.parties.sender].chi) == Plus(Base(d[1]), m.body.gamma_v)
  }

  ghost predicate ContentAccepted(party: Party, data: SignData, kept: Kept2, m: TransmitPhase2to3) {
    && m.parties.sender in kept && m.parties.sender in party.mul_receivers && PointOpens(kept, m)
    && var d := ReceiverRunFor(party, data, kept, m);
    && d.Ok? && |d.value| == 2 && InstanceConsistent(kept, m, d.value) && ShareConsistent(kept, m, d.value)
  }

  /** Phase 3 accepts the content of a message just when its instance point opens the commitment, the multiplication is
      accepted and both equations in the exponent hold. Otherwise the sender is banned, except for a wrong opening. */
  lemma ContentDecides(party: Party, data: SignData, kept: Kept2, m: TransmitPhase2to3)
    ensures var r := Phase3Content(party, data, kept, m);
      var (me, c) := (party.party_index, m.parties.sender);
      && (r.Ok? <==> ContentAccepted(party, data, kept, m))
      && (r.Ok? ==> var d := ReceiverRunFor(party, data, kept, m).value; r.value == (d[0], d[1]))
      && (c in kept && c in party.mul_receivers && r.Err? ==>
           var d := ReceiverRunFor(party, data, kept, m);
           r.error == if !PointOpens(kept, m) then Recover(me, CommitmentMismatch(c))
                      else if d.Err? then Ban(me, c, MultiplicationVerificationFailed(c))
                      else if !InstanceConsistent(kept, m, d.value) then Ban(me, c, GammaUInconsistency(c))
                      else Ban(me, c, OtConsistencyCheckFailed(c)))
  {
    hide MulReceiverRun2, MulSid, PairId;
    PairIdIs(party.party_index, m.parties.sender, party, data);
  }

  ghost predicate Accepted3(party: Party, data: SignData, kept: Kept2, m: TransmitPhase2to3) {
    && m.parties.sender in data.counterparties && m.parties.receiver == party.party_index
    && m.body.instance_point != IDENTITY && ContentAccepted(party, data, kept, m)
  }

  lemma Accepted3Is(party: Party, data: SignData, kept: Kept2, m: TransmitPhase2to3)
    ensures Acceptable(party, data, kept, m) <==> Accepted3(party, data, kept, m)
  {
    hide Phase3Content, ContentAccepted;
    ContentDecides(party, data, kept, m);
  }

  /** What a message adds to the two sums of multiplication outputs. */
  ghost function OutputsWith(party: Party, data: SignData, kept: Kept2, w: nat): TransmitPhase2to3 -> Scalar
    requires w < 2
  {
    m =>
      if Accepted3(party, data, kept, m) then
        Add(if w == 0 then kept[m.parties.sender].c_u else kept[m.parties.sender].c_v, ReceiverRunFor(party, data, kept, m).value[w])
      else 0
  }

  lemma OutputsAre(party: Party, data: SignData, kept: Kept2, received: seq<TransmitPhase2to3>)
    requires forall m :: m in received ==> Accepted3(party, data, kept, m)
    ensures SumOver(USummands(party, data, kept), received) == SumOver(OutputsWith(party, data, kept, 0), received)
    ensures SumOver(VSummands(party, data, kept), received) == SumOver(OutputsWith(party, data, kept, 1), received)
  {
    hide Accepted3, Sum;
    var us, vs := OutputsWith(party, data, kept, 0), OutputsWith(party, data, kept, 1);
    forall i | 0 <= i < |received|
      ensures Mapped(USummands(party, data, kept), received)[i] == Mapped(us, received)[i]
      ensures Mapped(VSummands(party, data, kept), received)[i] == Mapped(vs, received)[i]
    {
      assert received[i] in received;
      OneOutput(party, data, kept, received[i]);
    }
    assert Mapped(USummands(party, data, kept), received) == Mapped(us, received);
    assert Mapped(VSummands(party, data, kept), received) == Mapped(vs, received);
  }

  lemma OneOutput(party: Party, data: SignData, kept: Kept2, m: TransmitPhase2to3)
    requires Accepted3(party, data, kept, m)
    ensures USummands(party, data, kept)(m) == OutputsWith(party, data, kept, 0)(m)
    ensures VSummands(party, data, kept)(m) == OutputsWith(party, data, kept, 1)(m)
  {
    ContentDecides(party, data, kept, m);
    hide Phase3Content, ReceiverRunFor, PointOpens, InstanceConsistent, ShareConsistent;
  }

  /** Phase 3 succeeds just when there is one acceptable message from each of as many senders as there are counterparties, the
      public shares add up to the public key, and the instance points do not cancel. The x coordinate is that of the total
      instance point, and u and w are made from the sums over all messages. */
  lemma Phase3Decides(party: Party, data: SignData, unique: UniqueKeep2to3, kept: Kept2, received: seq<TransmitPhase2to3>)
    ensures var r := Phase3Outcome(party, data, unique, kept, received);
      var total := Add(unique.instance_point.log, SumOver(InstanceLog, received));
      && (r.Ok? <==>
           && |received| == |data.counterparties| && NoRepeats(Mapped(SenderOf2, received))
           && (forall m :: m in received ==> Accepted3(party, data, kept, m))
           && Add(unique.public_share.log, SumOver(PublicLog, received)) == party.pk.log && total != 0)
      && (r.Ok? ==>
           var psi := Add(unique.inversion_mask, SumOver(Psi, received));
           var u := Add(Mul(unique.instance_key, psi), SumOver(OutputsWith(party, data, kept, 0), received));
           var v := Add(Mul(unique.key_share, psi), SumOver(OutputsWith(party, data, kept, 1), received));
           && r.value.0 == X(Base(total)) && r.value.1.u == u
           && r.value.1.w == Add(Mul(ReduceHash(data.message_hash), unique.inversion_mask), Mul(v, Of(X(Base(total))))))
      && (|received| != |data.counterparties| ==>
           r == Err(Recover(party.party_index, WrongMessageCount(|data.counterparties|, |received|))))
      && (r.Err? && |received| == |data.counterparties| && NoRepeats(Mapped(SenderOf2, received))
          && (forall m :: m in received ==> Accepted3(party, data, kept, m)) ==>
           r.error == Recover(party.party_index, PolynomialInconsistency))
  {
    hide Acceptable, Accepted3, Phase3Loop, SumOver, OutputsWith, USummands, VSummands;
    var t := InitialTotals(unique);
    Phase3LoopMeaning(party, data, kept, received, {}, t);
    forall m | m in received ensures Acceptable(party, data, kept, m) <==> Accepted3(party, data, kept, m) {
      Accepted3Is(party, data, kept, m);
    }
    if forall m :: m in received ==> Accepted3(party, data, kept, m) {
      OutputsAre(party, data, kept, received);
      LeftZero(SumOver(USummands(party, data, kept), received));
      LeftZero(SumOver(VSummands(party, data, kept), received));
    }
  }

  // The first bad message decides

  /** The complaint about a message of phase 3, given the senders already seen. */
  ghost function Complaint3(party: Party, data: SignData, kept: Kept2, m: TransmitPhase2to3, seen: set<PartyIndex>): Abort {
    var (me, c) := (party.party_index, m.parties.sender);
    if c !in data.counterparties then Recover(me, UnexpectedSender(c))
    else if m.parties.receiver != me then Recover(me, MisroutedMessage(me, m.parties.receiver))
    else if m.body.instance_point == IDENTITY then Recover(me, TrivialInstancePoint(c))
    else if c in seen then Recover(me, DuplicateSender(c))
    else if c !in kept then Recover(me, MissingMulState(c))
    else if !PointOpens(kept, m) then Recover(me, CommitmentMismatch(c))
    else if c !in party.mul_receivers then Recover(me, MissingMulState(c))
    else
      var d := ReceiverRunFor(party, data, kept, m);
      if d.Err? then Ban(me, c, MultiplicationVerificationFailed(c))
      else if |d.value| == 2 && !InstanceConsistent(kept, m, d.value) then Ban(me, c, GammaUInconsistency(c))
      else Ban(me, c, OtConsistencyCheckFailed(c))
  }

  lemma ComplaintIs(party: Party, data: SignData, kept: Kept2, m: TransmitPhase2to3, seen: set<PartyIndex>)
    ensures Phase3Message(party, data, kept, m, seen).Ok? <==> Accepted3(party, data, kept, m) && m.parties.sender !in seen
    ensures Phase3Message(party, data, kept, m, seen).Err? ==>
      Phase3Message(party, data, kept, m, seen).error == Complaint3(party, data, kept, m, seen)
  {
    hide MulReceiverRun2, MulSid, PairId;
    PairIdIs(party.party_index, m.parties.sender, party, data);
  }

  ghost function SendersBefore(received: seq<TransmitPhase2to3>, k: nat): set<PartyIndex>
    requires k <= |received|
  {
    set i | 0 <= i < k :: received[i].parties.sender
  }

  /** If all messages before number k are acceptable and from different senders, and message k is not or is from one of them,
      phase 3 fails with the complaint about message k. */
  lemma {:induction false} Phase3StopsAt(party: Party, data: SignData, kept: Kept2, received: seq<TransmitPhase2to3>,
                                         seen: set<PartyIndex>, t: Totals, k: nat)
    requires k < |received|
    requires forall i :: 0 <= i < k ==> Accepted3(party, data, kept, received[i]) && received[i].parties.sender !in seen
    requires forall i, j :: 0 <= i < j < k ==> received[i].parties.sender != received[j].parties.sender
    requires !Accepted3(party, data, kept, received[k]) || received[k].parties.sender in seen + SendersBefore(received, k)
    ensures Phase3Loop(party, data, kept, received, seen, t)
            == Err(Complaint3(party, data, kept, received[k], seen + SendersBefore(received, k)))
    decreases k
  {
    hide Phase3Content, Phase3Message, Accepted3, Acceptable, Complaint3;
    if k == 0 {
      assert seen + SendersBefore(received, 0) == seen;
      ComplaintIs(party, data, kept, received[0], seen);
    } else {
      var c, rest := received[0].parties.sender, received[1..];
      ComplaintIs(party, data, kept, received[0], seen);
      Accepted3Is(party, data, kept, received[0]);
      AcceptableIsKept(party, data, kept, received[0]);
      var t' := AddMessage(t, kept, received[0], Phase3Message(party, data, kept, received[0], seen).value);
      assert forall i :: 0 <= i < |rest| ==> rest[i] == received[i + 1];
      assert seen + SendersBefore(received, k) == seen + {c} + SendersBefore(rest, k - 1);
      Phase3StopsAt(party, data, kept, rest, seen + {c}, t', k - 1);
    }
  }
}
