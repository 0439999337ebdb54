/** Honest runs in which one message has been changed: the receiver rejects it and names its sender. */
module Tampering {
  import opened Outcomes
  import opened PrimeField
  import opened Sums
  import opened Hashes
  import opened Curve
  import opened OracleTags
  import opened Sequences
  import opened BinaryField
  import opened OTExtension
  import opened OTAcceptance
  import opened Multiplication
  import opened MultiplicationAcceptance
  import opened Protocols
  import opened ZeroShares
  import opened PartyStates
  import opened Ecdsa
  import opened Signing
  import opened SigningMessages
  import opened SigningAlgebra
  import opened SigningRuns
  import opened SigningOutcome
  import opened SigningAcceptance

  // Signing, phase 3

  /** The message of phase 2 from c to i with another body. */
  ghost function WithBody(run: SigningRun, c: PartyIndex, i: PartyIndex, body: Body2): TransmitPhase2to3 {
    Transmit(PartiesMessage(c, i), body)
  }

  /** If message k is not acceptable, phase 3 of an otherwise honest run fails with the complaint about it. */
  lemma ChangedMessage(run: SigningRun, i: PartyIndex, order: seq<PartyIndex>, arrived: seq<PartyIndex>, k: nat, m: TransmitPhase2to3)
    requires ValidRun(run) && i in run.group && OthersNonZero(run, i) && k < |arrived|
    requires ListsOthers(run, i, order) && ListsOthers(run, i, arrived)
    requires m.parties == PartiesMessage(arrived[k], i)
    requires AllPairs(run, i, order) && AllPairs(run, i, arrived) && i in run.ps
    requires !Accepted3(run.ps[i], DataOf(run, i), Kept2For(run, i, order), m)
    ensures arrived[k] !in Elements(arrived[..k])
    ensures Phase3Outcome(run.ps[i], DataOf(run, i), Unique2(run, i), Kept2For(run, i, order), Inbox2(run, i, arrived)[k := m])
            == Err(Complaint3(run.ps[i], DataOf(run, i), Kept2For(run, i, order), m, Elements(arrived[..k])))
  {
    hide ConsistentParties, Message2, Phase3Content, Phase3Loop, Keep2, Acceptable, Accepted3, OthersNonZero, Complaint3;
    var party, data, kept := run.ps[i], DataOf(run, i), Kept2For(run, i, order);
    var changed := Inbox2(run, i, arrived)[k := m];
    OrderPairs(run, i, arrived);
    OrderPairs(run, i, run.orders(i));
    HonestInbox(run, i, order, arrived);
    assert SendersBefore(changed, k) == Elements(arrived[..k]) by {
      assert forall n :: 0 <= n < k ==> changed[n].parties.sender == arrived[n] == arrived[..k][n];
    }
    Phase3StopsAt(party, data, kept, changed, {}, InitialTotals(Unique2(run, i)), k);
    assert {} + SendersBefore(changed, k) == SendersBefore(changed, k);
  }

  lemma HonestInbox(run: SigningRun, i: PartyIndex, order: seq<PartyIndex>, arrived: seq<PartyIndex>)
    requires ValidRun(run) && i in run.group && OthersNonZero(run, i) && ListsOthers(run, i, order) && ListsOthers(run, i, arrived)
    requires AllPairs(run, i, order) && AllPairs(run, i, arrived) && i in run.ps
    ensures var inbox := Inbox2(run, i, arrived);
      forall n :: 0 <= n < |inbox| ==>
           Accepted3(run.ps[i], DataOf(run, i), Kept2For(run, i, order), inbox[n]) && inbox[n].parties.sender == arrived[n]
  {
    hide ConsistentParties, Message2, Phase3Content, Keep2, Acceptable, Accepted3, OthersNonZero, NoRepeats;
    var kept, inbox := Kept2For(run, i, order), Inbox2(run, i, arrived);
    forall j | j in arrived ensures Pair(run, i, j) && j in kept && kept[j] == Keep2(run, i, j) {
      assert j in order;
    }
    InboxAcceptable(run, i, arrived, kept);
    forall n | 0 <= n < |inbox|
      ensures Accepted3(run.ps[i], DataOf(run, i), kept, inbox[n]) && inbox[n].parties.sender == arrived[n]
    {
      assert inbox[n] in inbox;
      Accepted3Is(run.ps[i], DataOf(run, i), kept, inbox[n]);
      assert arrived[n] in arrived;
      MessageAcceptable(run, i, arrived[n], kept);
    }
  }

  /** The honest message from c to i passes all checks on its content. */
  lemma HonestContent(run: SigningRun, i: PartyIndex, order: seq<PartyIndex>, c: PartyIndex)
    requires ValidRun(run) && i in run.group && ListsOthers(run, i, order) && AllPairs(run, i, order) && c in order
    ensures Pair(run, i, c) && i in run.ps
    ensures ContentAccepted(run.ps[i], DataOf(run, i), Kept2For(run, i, order), Message2(run, c, i))
    ensures Message2(run, c, i).parties == PartiesMessage(c, i)
    ensures Message2(run, c, i).body.instance_point.log == InstanceKey(run, c)
  {
    hide ConsistentParties, Message2, Phase3Content, ContentAccepted, Keep2;
    OrderPairs(run, i, order);
    Phase3ContentIs(run, i, c, Kept2For(run, i, order));
    ContentDecides(run.ps[i], DataOf(run, i), Kept2For(run, i, order), Message2(run, c, i));
    PairReady(run, i, c);
    MessageFields(run, c, i);
  }

  /** A changed gamma_u, gamma_v or matrix hash gets its sender banned, whatever the order of arrival. */
  lemma TamperedSenderBanned(run: SigningRun, i: PartyIndex, order: seq<PartyIndex>, arrived: seq<PartyIndex>, k: nat,
                             gamma: Point, h: HashOutput)
    requires ValidRun(run) && i in run.group && OthersNonZero(run, i) && k < |arrived|
    requires ListsOthers(run, i, order) && ListsOthers(run, i, arrived)
    ensures i in run.ps && AllPairs(run, i, order) && AllPairs(run, i, arrived)
    ensures var c := arrived[k];
      var body := Inbox2(run, i, arrived)[k].body;
      && (gamma != body.gamma_u ==>
           Phase3Of(run, i, order, arrived, k, body.(gamma_u := gamma)) == Err(Ban(i, c, GammaUInconsistency(c))))
      && (gamma != body.gamma_v ==>
           Phase3Of(run, i, order, arrived, k, body.(gamma_v := gamma)) == Err(Ban(i, c, OtConsistencyCheckFailed(c))))
      && (h != body.mul_transmit.verify_r ==>
           Phase3Of(run, i, order, arrived, k, body.(mul_transmit := body.mul_transmit.(verify_r := h)))
           == Err(Ban(i, c, MultiplicationVerificationFailed(c))))
  {
    hide ConsistentParties, Message2, Phase3Outcome, Keep2, NoRepeats;
    OrderPairs(run, i, order);
    OrderPairs(run, i, arrived);
    assert arrived[k] in arrived && arrived[k] in order;
    if gamma != Inbox2(run, i, arrived)[k].body.gamma_u {
      BadGammaU(run, i, order, arrived, k, gamma);
    }
    if gamma != Inbox2(run, i, arrived)[k].body.gamma_v {
      BadGammaV(run, i, order, arrived, k, gamma);
    }
    if h != Inbox2(run, i, arrived)[k].body.mul_transmit.verify_r {
      BadMatrix(run, i, order, arrived, k, h);
    }
  }

  /** The outcome of phase 3 of member i when message k arrives with another body. */
  ghost function Phase3Of(run: SigningRun, i: PartyIndex, order: seq<PartyIndex>, arrived: seq<PartyIndex>, k: nat, body: Body2)
    : Result<(nat, Broadcast3to4), Abort>
    requires ValidRun(run) && i in run.ps && AllPairs(run, i, order) && AllPairs(run, i, arrived) && k < |arrived|
  {
    Phase3Outcome(run.ps[i], DataOf(run, i), Unique2(run, i), Kept2For(run, i, order),
                  Inbox2(run, i, arrived)[k := WithBody(run, arrived[k], i, body)])
  }

  lemma BadGammaU(run: SigningRun, i: PartyIndex, order: seq<PartyIndex>, arrived: seq<PartyIndex>, k: nat, gamma: Point)
    requires ValidRun(run) && i in run.group && OthersNonZero(run, i) && k < |arrived|
    requires ListsOthers(run, i, order) && ListsOthers(run, i, arrived) && AllPairs(run, i, order) && AllPairs(run, i, arrived)
    requires i in run.ps && gamma != Inbox2(run, i, arrived)[k].body.gamma_u
    ensures Phase3Of(run, i, order, arrived, k, Inbox2(run, i, arrived)[k].body.(gamma_u := gamma))
            == Err(Ban(i, arrived[k], GammaUInconsistency(arrived[k])))
  {
    hide ConsistentParties, Message2, Phase3Content, Phase3Outcome, Keep2, NoRepeats, ReceiverRunFor;
    var c := arrived[k];
    assert c in arrived && c in order;
    HonestContent(run, i, order, c);
    PartyFacts(run, i);
    var good := Message2(run, c, i);
    var m := WithBody(run, c, i, good.body.(gamma_u := gamma));
    var kept := Kept2For(run, i, order);
    SameReceiverRun(run.ps[i], DataOf(run, i), kept, good, m);
    ContentDecides(run.ps[i], DataOf(run, i), kept, m);
    assert good.body.instance_point != IDENTITY;
    SamePlus(ReceiverRunFor(run.ps[i], DataOf(run, i), kept, good).value[0], good.body.gamma_u, gamma);
    ChangedMessage(run, i, order, arrived, k, m);
  }

  lemma BadGammaV(run: SigningRun, i: PartyIndex, order: seq<PartyIndex>, arrived: seq<PartyIndex>, k: nat, gamma: Point)
    requires ValidRun(run) && i in run.group && OthersNonZero(run, i) && k < |arrived|
    requires ListsOthers(run, i, order) && ListsOthers(run, i, arrived) && AllPairs(run, i, order) && AllPairs(run, i, arrived)
    requires i in run.ps && gamma != Inbox2(run, i, arrived)[k].body.gamma_v
    ensures Phase3Of(run, i, order, arrived, k, Inbox2(run, i, arrived)[k].body.(gamma_v := gamma))
            == Err(Ban(i, arrived[k], OtConsistencyCheckFailed(arrived[k])))
  {
    hide ConsistentParties, Message2, Phase3Content, Phase3Outcome, Keep2, NoRepeats, ReceiverRunFor;
    var c := arrived[k];
    assert c in arrived && c in order;
    HonestContent(run, i, order, c);
    PartyFacts(run, i);
    var good := Message2(run, c, i);
    var m := WithBody(run, c, i, good.body.(gamma_v := gamma));
    var kept := Kept2For(run, i, order);
    SameReceiverRun(run.ps[i], DataOf(run, i), kept, good, m);
    ContentDecides(run.ps[i], DataOf(run, i), kept, m);
    assert good.body.instance_point != IDENTITY;
    SamePlus(ReceiverRunFor(run.ps[i], DataOf(run, i), kept, good).value[1], good.body.gamma_v, gamma);
    ChangedMessage(run, i, order, arrived, k, m);
  }

  lemma BadMatrix(run: SigningRun, i: PartyIndex, order: seq<PartyIndex>, arrived: seq<PartyIndex>, k: nat, h: HashOutput)
    requires ValidRun(run) && i in run.group && OthersNonZero(run, i) && k < |arrived|
    requires ListsOthers(run, i, order) && ListsOthers(run, i, arrived) && AllPairs(run, i, order) && AllPairs(run, i, arrived)
    requires i in run.ps && h != Inbox2(run, i, arrived)[k].body.mul_transmit.verify_r
    ensures var body := Inbox2(run, i, arrived)[k].body;
      Phase3Of(run, i, order, arrived, k, body.(mul_transmit := body.mul_transmit.(verify_r := h)))
      == Err(Ban(i, arrived[k], MultiplicationVerificationFailed(arrived[k])))
  {
    hide ConsistentParties, Message2, Phase3Content, Phase3Outcome, Keep2, NoRepeats, MulReceiverRun2, PairId;
    var c := arrived[k];
    assert c in arrived && c in order;
    HonestContent(run, i, order, c);
    PartyFacts(run, i);
    var good := Message2(run, c, i);
    var m := WithBody(run, c, i, good.body.(mul_transmit := good.body.mul_transmit.(verify_r := h)));
    var kept := Kept2For(run, i, order);
    var sid := PairId(i, c, run.ps[i], DataOf(run, i));
    OtherHash(run.ps[i].mul_receivers[c], sid, kept[c].mul_keep, good.body.mul_transmit, h);
    ContentDecides(run.ps[i], DataOf(run, i), kept, m);
    ChangedMessage(run, i, order, arrived, k, m);
  }

  lemma OtherHash(receiver: MulReceiver, sid: Bytes, kept: MulDataToKeepReceiver, received: MulDataToReceiver, h: HashOutput)
    requires MulReceiverRun2(receiver, sid, kept, received).Ok? && h != received.verify_r
    ensures MulReceiverRun2(receiver, sid, kept, received.(verify_r := h)) == Err(WrongMatrix)
  {
    hide MulReceiverRun2, ReceiverRun2, Recomputed;
    MulReceiverDecides(receiver, sid, kept, received);
    MulReceiverDecides(receiver, sid, kept, received.(verify_r := h));
  }

  lemma SameReceiverRun(party: Party, data: SignData, kept: Kept2, m: TransmitPhase2to3, n: TransmitPhase2to3)
    requires m.parties.sender == n.parties.sender && m.body.mul_transmit == n.body.mul_transmit
    requires m.parties.sender in kept && m.parties.sender in party.mul_receivers
    ensures ReceiverRunFor(party, data, kept, m) == ReceiverRunFor(party, data, kept, n)
  {}

  lemma SamePlus(d: Scalar, p: Point, q: Point)
    ensures p != q ==> Plus(Base(d), p) != Plus(Base(d), q)
  {
    if Plus(Base(d), p) == Plus(Base(d), q) {
      RemoveFirst(d, p.log);
      RemoveFirst(d, q.log);
    }
  }

  // Signing, phase 2

  /** A changed verify_t in a message of phase 1 gets its sender banned in phase 2, whatever the order of arrival. */
  lemma TamperedCheckBanned(run: SigningRun, i: PartyIndex, arrived: seq<PartyIndex>, k: nat, t: seq<FieldElement>)
    requires ValidRun(run) && i in run.group && ListsOthers(run, i, arrived) && k < |arrived|
    ensures i in run.ps && AllPairs(run, i, arrived) && AllPairs(run, i, run.orders(i))
    ensures var c := arrived[k];
      var m := Inbox1(run, i, arrived)[k];
      t != m.body.mul_transmit.verify_t ==>
        Phase2Outcome(run.ps[i], DataOf(run, i), Unique1(run, i), Kept1For(run, i, run.orders(i)), run.draws(i),
                      Inbox1(run, i, arrived)[k := m.(body := m.body.(mul_transmit := m.body.mul_transmit.(verify_t := t)))])
        == Err(Ban(i, c, MultiplicationVerificationFailed(c)))
  {
    hide ValidRun, Phase2Loop, Keep1, Message1, Message2, Keep2, KeyShare, NoRepeats;
    var kept := PreparePhase2(run, i, arrived);
    var c := arrived[k];
    var inbox := Inbox1(run, i, arrived);
    var m := inbox[k];
    if t != m.body.mul_transmit.verify_t {
      var bad := m.(body := m.body.(mul_transmit := m.body.mul_transmit.(verify_t := t)));
      assert [] + arrived == arrived;
      assert c in arrived;
      SenderOfMessage1(run, c, i);
      BadCheck(run, i, c, kept, t);
      StopsAtBadCheck(run, i, kept, arrived, k, bad);
    }
  }

  /** The message of phase 1 with another verify_t is turned down. */
  lemma BadCheck(run: SigningRun, i: PartyIndex, c: PartyIndex, kept: Kept1, t: seq<FieldElement>)
    requires ValidRun(run) && Pair(run, i, c) && c in run.orders(i) && c in kept && i in run.ps
    requires t != Message1(run, c, i).body.mul_transmit.verify_t
    ensures var m := Message1(run, c, i);
      var bad := m.(body := m.body.(mul_transmit := m.body.mul_transmit.(verify_t := t)));
      forall seen :: c !in seen ==>
        Phase2Message(run.ps[i], DataOf(run, i), Unique1(run, i), kept, KeyShareOf(run, i), run.draws(i), bad, seen)
        == Err(Ban(i, c, MultiplicationVerificationFailed(c)))
  {
    hide ValidRun, MulSid, MulReceiverRun1, MulReceiverRun2, MulSenderRun, KeyShareOf;
    PairReady(run, i, c);
    PairReady(run, c, i);
    BetweenIs(run, c, i);
    var dr, ds := run.draws(c).pairs(i), run.draws(i).pairs(c);
    TamperedCheckRejected(run.ps[i].mul_senders[c], run.ps[c].mul_receivers[i], MulSid(c, i, run.ps[c], DataOf(run, c)),
                          [InstanceKey(run, i), KeyShareOf(run, i)], ds.a_tilde, ds.a_hat, dr.choice_bits, dr.noise, t);
  }

  /** After an accepted prefix the loop of phase 2 goes on with what it has. */
  lemma {:induction false} Phase2LoopSplit(party: Party, data: SignData, unique: UniqueKeep1to2, kept: Kept1, key_share: Scalar,
                                           draws: SignDraws, first: seq<TransmitPhase1to2>, rest: seq<TransmitPhase1to2>,
                                           seen: set<PartyIndex>, keep: Kept2, transmit: seq<TransmitPhase2to3>)
    requires Phase2Loop(party, data, unique, kept, key_share, draws, first, seen, keep, transmit).Ok?
    ensures var (keep', transmit') := Phase2Loop(party, data, unique, kept, key_share, draws, first, seen, keep, transmit).value;
      Phase2Loop(party, data, unique, kept, key_share, draws, first + rest, seen, keep, transmit)
      == Phase2Loop(party, data, unique, kept, key_share, draws, rest, seen + SendersOf(first), keep', transmit')
    decreases |first|
  {
    hide Phase2Message;
    if first == [] {
      assert first + rest == rest;
      assert seen + SendersOf(first) == seen;
    } else {
      var c := first[0].parties.sender;
      var r := Phase2Message(party, data, unique, kept, key_share, draws, first[0], seen);
      Phase2LoopSplit(party, data, unique, kept, key_share, draws, first[1..], rest, seen + {c}, keep[c := r.value.0], transmit + [r.value.1]);
      assert (first + rest)[1..] == first[1..] + rest;
      assert seen + SendersOf(first) == seen + {c} + SendersOf(first[1..]);
    }
  }

  ghost function SendersOf(received: seq<TransmitPhase1to2>): set<PartyIndex> {
    if received == [] then {} else {received[0].parties.sender} + SendersOf(received[1..])
  }

  lemma {:induction false} SenderNotIn(run: SigningRun, i: PartyIndex, first: seq<PartyIndex>, c: PartyIndex)
    requires ValidRun(run) && AllPairs(run, i, first) && c !in first
    ensures c !in SendersOf(Inbox1(run, i, first))
    decreases |first|
  {
    hide ValidRun, Message1;
    if first != [] {
      SenderOfMessage1(run, first[0], i);
      assert Inbox1(run, i, first)[1..] == Inbox1(run, i, first[1..]);
      SenderNotIn(run, i, first[1..], c);
    }
  }

  /** The loop of phase 2 accepts the honest messages before the bad one and stops there. */
  lemma StopsAtBadCheck(run: SigningRun, i: PartyIndex, kept: Kept1, arrived: seq<PartyIndex>, k: nat, bad: TransmitPhase1to2)
    requires ValidRun(run) && i in run.ps && AllPairs(run, i, arrived) && NoRepeats(arrived) && k < |arrived|
    requires forall j :: j in arrived ==> j in run.orders(i) && j in kept && Pair(run, i, j) && kept[j] == Keep1(run, i, j)
    requires bad.parties == PartiesMessage(arrived[k], i)
    requires forall seen :: arrived[k] !in seen ==>
      Phase2Message(run.ps[i], DataOf(run, i), Unique1(run, i), kept, KeyShareOf(run, i), run.draws(i), bad, seen)
      == Err(Ban(i, arrived[k], MultiplicationVerificationFailed(arrived[k])))
    ensures Phase2Loop(run.ps[i], DataOf(run, i), Unique1(run, i), kept, KeyShareOf(run, i), run.draws(i),
                       Inbox1(run, i, arrived)[k := bad], {}, map[], [])
            == Err(Ban(i, arrived[k], MultiplicationVerificationFailed(arrived[k])))
  {
    hide ValidRun, Phase2Message, Message1, Message2, Keep1, Keep2, KeyShareOf, Unique1;
    var first := arrived[..k];
    assert [] + first == first && forall j :: j in first ==> j in arrived;
    Phase2LoopIs(run, i, kept, [], first);
    assert Kept2For(run, i, []) == map[] && Messages2(run, i, []) == [] && Elements<PartyIndex>([]) == {};
    SenderNotIn(run, i, first, arrived[k]);
    var changed := Inbox1(run, i, arrived)[k := bad];
    assert changed == Inbox1(run, i, first) + changed[k..] && changed[k..][0] == bad;
    Phase2LoopSplit(run.ps[i], DataOf(run, i), Unique1(run, i), kept, KeyShareOf(run, i), run.draws(i),
                    Inbox1(run, i, first), changed[k..], {}, map[], []);
  }
}
