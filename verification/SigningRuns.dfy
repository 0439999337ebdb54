/** An honest signing run of a set of t parties: what each of them sends and keeps, and what comes out. */
module SigningRuns {
  import opened Outcomes
  import opened PrimeField
  import opened Sums
  import opened Polynomials
  import opened Hashes
  import opened Curve
  import opened Sequences
  import opened Proofs
  import opened Transpose
  import opened OTExtension
  import opened Multiplication
  import opened Protocols
  import opened ZeroShares
  import opened PartyStates
  import opened Ecdsa
  import opened Signing
  import opened SigningMessages
  import opened SigningAlgebra

  // One multiplication between two honest ends

  /** The receiver's random factor and state, the message to the sender, the sender's output and message,
      and the receiver's output. */
  datatype MulExchange = MulExchange(
    chi: Scalar, keep: MulDataToKeepReceiver, data: OTEDataToSender, c: seq<Scalar>, msg: MulDataToReceiver, d: seq<Scalar>)

  ghost predicate IsExchange(x: MulExchange, receiver: MulReceiver, sender: MulSender, sid: Bytes, input: seq<Scalar>,
                             dr: ValidPairDraws, ds: ValidPairDraws)
    requires |input| == L
  {
    && MulReceiverRun1(receiver, sid, dr.choice_bits, dr.noise) == Ok((x.chi, x.keep, x.data))
    && MulSenderRun(sender, sid, input, x.data, ds.a_tilde, ds.a_hat) == Ok((x.c, x.msg))
    && |x.c| == |x.d| == L
    && MulReceiverRun2(receiver, sid, x.keep, x.msg) == Ok(x.d)
    && forall i :: 0 <= i < L ==> Add(x.c[i], x.d[i]) == Mul(input[i], x.chi)
  }

  ghost function Exchange(receiver: MulReceiver, sender: MulSender, sid: Bytes, input: seq<Scalar>,
                          dr: ValidPairDraws, ds: ValidPairDraws): (x: MulExchange)
    requires Paired(sender, receiver) && |input| == L
    ensures IsExchange(x, receiver, sender, sid, input, dr, ds)
  {
    MultiplicationCorrect(sender, receiver, sid, input, ds.a_tilde, ds.a_hat, dr.choice_bits, dr.noise);
    var (chi, keep, data) := MulReceiverRun1(receiver, sid, dr.choice_bits, dr.noise).value;
    var (c, msg) := MulSenderRun(sender, sid, input, data, ds.a_tilde, ds.a_hat).value;
    MulExchange(chi, keep, data, c, msg, MulReceiverRun2(receiver, sid, keep, msg).value)
  }

  // The run

  /** The parties with their joint state, the group that signs, how each member lists and hears from the others, and
      what each draws. */
  datatype SigningRun = SigningRun(
    ps: Parties, parameters: ValidParameters, polynomial: seq<Scalar>, session_id: Bytes, chain_code: ChainCode,
    group: seq<PartyIndex>, sign_id: Bytes, message_hash: HashOutput,
    orders: PartyIndex -> seq<PartyIndex>, draws: PartyIndex -> SignDraws)

  /** order lists the members of the group other than i, each once. */
  ghost predicate ListsOthers(run: SigningRun, i: PartyIndex, order: seq<PartyIndex>) {
    NoRepeats(order) && forall j :: j in order <==> j in run.group && j != i
  }

  ghost predicate ValidRun(run: SigningRun) {
    && ConsistentParties(run.ps, run.parameters, run.polynomial, run.session_id, run.chain_code)
    && NoRepeats(run.group) && |run.group| == run.parameters.threshold
    && (forall i :: i in run.group ==> i in run.ps && ListsOthers(run, i, run.orders(i)))
  }

  ghost function DataOf(run: SigningRun, i: PartyIndex): SignData {
    SignData(run.sign_id, run.orders(i), run.message_hash)
  }

  ghost function InstanceKey(run: SigningRun, i: PartyIndex): Scalar {
    run.draws(i).instance_key
  }

  ghost function InversionMask(run: SigningRun, i: PartyIndex): Scalar {
    run.draws(i).inversion_mask
  }

  ghost function ZetaOf(run: SigningRun, i: PartyIndex): Scalar
    requires i in run.ps
  {
    Zeta(run.ps[i].zero_share, run.orders(i), ZeroSid(run.ps[i], DataOf(run, i)))
  }

  ghost function KeyShareOf(run: SigningRun, i: PartyIndex): Scalar
    requires i in run.ps
  {
    var share := KeyShare(run.ps[i], run.orders(i), ZetaOf(run, i));
    if share.Some? then share.value else 0
  }

  /** Two different members of the group. */
  ghost predicate Pair(run: SigningRun, i: PartyIndex, j: PartyIndex) {
    i in run.group && j in run.group && i != j
  }

  lemma PairReady(run: SigningRun, i: PartyIndex, j: PartyIndex)
    requires ValidRun(run) && Pair(run, i, j)
    ensures i in run.ps && j in run.ps && run.ps[i].party_index == i && run.ps[j].party_index == j
    ensures j in run.ps[i].mul_receivers && i in run.ps[j].mul_senders
    ensures j in run.ps[i].mul_senders && i in run.ps[j].mul_receivers
    ensures Paired(run.ps[j].mul_senders[i], run.ps[i].mul_receivers[j])
    ensures MulSid(i, j, run.ps[i], DataOf(run, i)) == MulSid(i, j, run.ps[j], DataOf(run, j))
  {
    hide PairwiseSeeds, SharesOf, Paired;
  }

  /** The multiplication with receiver i and sender j. */
  ghost function Between(run: SigningRun, i: PartyIndex, j: PartyIndex): MulExchange
    requires ValidRun(run) && Pair(run, i, j)
  {
    PairReady(run, i, j);
    Exchange(run.ps[i].mul_receivers[j], run.ps[j].mul_senders[i], MulSid(i, j, run.ps[i], DataOf(run, i)),
             [InstanceKey(run, j), KeyShareOf(run, j)], run.draws(i).pairs(j), run.draws(j).pairs(i))
  }

  lemma BetweenIs(run: SigningRun, i: PartyIndex, j: PartyIndex)
    requires ValidRun(run) && Pair(run, i, j)
    ensures i in run.ps && j in run.ps && j in run.ps[i].mul_receivers && i in run.ps[j].mul_senders
    ensures IsExchange(Between(run, i, j), run.ps[i].mul_receivers[j], run.ps[j].mul_senders[i],
                       MulSid(i, j, run.ps[i], DataOf(run, i)), [InstanceKey(run, j), KeyShareOf(run, j)],
                       run.draws(i).pairs(j), run.draws(j).pairs(i))
  {
    hide IsExchange, ValidRun;
    PairReady(run, i, j);
  }

  // Phase 1

  ghost function Unique1(run: SigningRun, i: PartyIndex): UniqueKeep1to2
    requires i in run.ps
  {
    UniqueKeep1to2(InstanceKey(run, i), Base(InstanceKey(run, i)), InversionMask(run, i), ZetaOf(run, i))
  }

  /** The message of phase 1 from i to j. */
  ghost function Message1(run: SigningRun, i: PartyIndex, j: PartyIndex): TransmitPhase1to2
    requires ValidRun(run) && Pair(run, i, j)
  {
    Transmit(PartiesMessage(i, j), Body1(Commitment(PointBytes(Base(InstanceKey(run, i))), run.draws(i).pairs(j).salt),
                                         Between(run, i, j).data))
  }

  ghost function Keep1(run: SigningRun, i: PartyIndex, j: PartyIndex): KeepPhase1to2
    requires ValidRun(run) && Pair(run, i, j)
  {
    KeepPhase1to2(run.draws(i).pairs(j).salt, Between(run, i, j).chi, Between(run, i, j).keep)
  }

  ghost predicate AllPairs(run: SigningRun, i: PartyIndex, order: seq<PartyIndex>) {
    forall k :: 0 <= k < |order| ==> Pair(run, i, order[k])
  }

  ghost function Messages1(run: SigningRun, i: PartyIndex, order: seq<PartyIndex>): (m: seq<TransmitPhase1to2>)
    requires ValidRun(run) && AllPairs(run, i, order)
    ensures |m| == |order|
  {
    seq(|order|, k requires 0 <= k < |order| => Message1(run, i, order[k]))
  }

  ghost function Kept1For(run: SigningRun, i: PartyIndex, order: seq<PartyIndex>): Kept1
    requires ValidRun(run) && AllPairs(run, i, order)
  {
    map j | j in order :: Keep1(run, i, j)
  }

  lemma Phase1PairIs(run: SigningRun, i: PartyIndex, j: PartyIndex)
    requires ValidRun(run) && Pair(run, i, j)
    ensures i in run.ps && Phase1Pair(run.ps[i], DataOf(run, i), run.draws(i), j) == Ok((Keep1(run, i, j), Message1(run, i, j)))
  {
    hide ValidRun, MulSid;
    PairReady(run, i, j);
    BetweenIs(run, i, j);
  }

  lemma {:induction false} Phase1LoopIs(run: SigningRun, i: PartyIndex, done: seq<PartyIndex>, rest: seq<PartyIndex>)
    requires ValidRun(run) && i in run.ps && AllPairs(run, i, done + rest)
    ensures AllPairs(run, i, done)
    ensures Phase1Loop(run.ps[i], DataOf(run, i), run.draws(i), rest, Kept1For(run, i, done), Messages1(run, i, done))
            == Ok((Kept1For(run, i, done + rest), Messages1(run, i, done + rest)))
    decreases |rest|
  {
    hide ValidRun, Phase1Pair, Message1, Keep1;
    assert forall k :: 0 <= k < |done| ==> done[k] == (done + rest)[k];
    if rest == [] {
      assert done + rest == done;
    } else {
      assert (done + rest)[|done|] == rest[0];
      Phase1PairIs(run, i, rest[0]);
      var next := done + [rest[0]];
      assert next + rest[1..] == done + rest;
      Phase1LoopIs(run, i, next, rest[1..]);
      assert Kept1For(run, i, done)[rest[0] := Keep1(run, i, rest[0])] == Kept1For(run, i, next);
      assert Messages1(run, i, done) + [Message1(run, i, rest[0])] == Messages1(run, i, next);
    }
  }

  lemma {:induction false} NoFault(party: Party, cs: seq<PartyIndex>, seen: set<PartyIndex>)
    requires NoRepeats(cs) && forall c :: c in cs ==> CounterpartyFault(party, c, seen).None?
    ensures FirstFault(party, cs, seen).None?
  {
    if cs != [] {
      var s := seen + {cs[0]};
      forall c | c in cs[1..] ensures CounterpartyFault(party, c, s).None? {
        var k :| 0 <= k < |cs| - 1 && cs[1..][k] == c;
        assert cs[k + 1] == c && c != cs[0] && c in cs;
      }
      NoFault(party, cs[1..], s);
    }
  }

  lemma OrderPairs(run: SigningRun, i: PartyIndex, order: seq<PartyIndex>)
    requires ValidRun(run) && i in run.group && ListsOthers(run, i, order)
    ensures AllPairs(run, i, order) && |order| == run.parameters.threshold - 1 && i in run.ps
    ensures run.ps[i].party_index == i && run.ps[i].parameters == run.parameters && i <= run.parameters.share_count
  {
    hide PairwiseSeeds, AllPaired, SharesOf;
    var a :| 0 <= a < |run.group| && run.group[a] == i;
    ListsRest(run.group, a, order);
    forall k | 0 <= k < |order| ensures Pair(run, i, order[k]) {
      assert order[k] in order;
    }
  }

  /** Phase 1 succeeds. */
  lemma Phase1Honest(run: SigningRun, i: PartyIndex)
    requires ValidRun(run) && i in run.group
    ensures i in run.ps && AllPairs(run, i, run.orders(i))
    ensures Phase1Outcome(run.ps[i], DataOf(run, i), run.draws(i))
            == Ok((Unique1(run, i), Kept1For(run, i, run.orders(i)), Messages1(run, i, run.orders(i))))
  {
    hide Phase1Loop, Message1, Keep1, FirstFault, ValidRun, Zeta;
    var order := run.orders(i);
    NoFaultHonest(run, i);
    assert [] + order == order;
    Phase1LoopIs(run, i, [], order);
    assert Kept1For(run, i, []) == map[] && Messages1(run, i, []) == [];
  }

  lemma NoFaultHonest(run: SigningRun, i: PartyIndex)
    requires ValidRun(run) && i in run.group
    ensures i in run.ps && AllPairs(run, i, run.orders(i)) && |run.orders(i)| == run.parameters.threshold - 1
    ensures run.ps[i].party_index == i && run.ps[i].parameters == run.parameters && i <= run.parameters.share_count
    ensures FirstFault(run.ps[i], run.orders(i), {}).None?
  {
    hide FirstFault, AllPairs;
    var order := run.orders(i);
    OrderPairs(run, i, order);
    forall c | c in order ensures CounterpartyFault(run.ps[i], c, {}).None? {
      FaultFree(run, i, c);
    }
    NoFault(run.ps[i], order, {});
  }

  lemma FaultFree(run: SigningRun, i: PartyIndex, c: PartyIndex)
    requires ValidRun(run) && Pair(run, i, c)
    ensures i in run.ps && CounterpartyFault(run.ps[i], c, {}).None?
  {
    hide PairwiseSeeds, SharesOf, Paired;
    PairReady(run, i, c);
  }

  // Phase 2

  ghost function Unique2(run: SigningRun, i: PartyIndex): UniqueKeep2to3
    requires i in run.ps
  {
    UniqueKeep2to3(InstanceKey(run, i), Base(InstanceKey(run, i)), InversionMask(run, i), KeyShareOf(run, i), Base(KeyShareOf(run, i)))
  }

  /** The message of phase 2 from i to j. */
  ghost function Message2(run: SigningRun, i: PartyIndex, j: PartyIndex): TransmitPhase2to3
    requires ValidRun(run) && Pair(run, i, j)
  {
    Transmit(PartiesMessage(i, j),
             Body2(Base(Between(run, j, i).c[0]), Base(Between(run, j, i).c[1]), Sub(InversionMask(run, i), Between(run, i, j).chi),
                   Base(KeyShareOf(run, i)), Base(InstanceKey(run, i)), run.draws(i).pairs(j).salt, Between(run, j, i).msg))
  }

  ghost function Keep2(run: SigningRun, i: PartyIndex, j: PartyIndex): KeepPhase2to3
    requires ValidRun(run) && Pair(run, i, j)
  {
    KeepPhase2to3(Between(run, j, i).c[0], Between(run, j, i).c[1], Message1(run, j, i).body.commitment,
                  Between(run, i, j).keep, Between(run, i, j).chi)
  }

  /** What i receives in phase 2 when the messages arrive in the given order of senders. */
  ghost function Inbox1(run: SigningRun, i: PartyIndex, order: seq<PartyIndex>): (m: seq<TransmitPhase1to2>)
    requires ValidRun(run) && AllPairs(run, i, order)
    ensures |m| == |order|
  {
    seq(|order|, k requires 0 <= k < |order| => Message1(run, order[k], i))
  }

  ghost function Messages2(run: SigningRun, i: PartyIndex, order: seq<PartyIndex>): (m: seq<TransmitPhase2to3>)
    requires ValidRun(run) && AllPairs(run, i, order)
    ensures |m| == |order|
  {
    seq(|order|, k requires 0 <= k < |order| => Message2(run, i, order[k]))
  }

  ghost function Kept2For(run: SigningRun, i: PartyIndex, order: seq<PartyIndex>): Kept2
    requires ValidRun(run) && AllPairs(run, i, order)
  {
    map j | j in order :: Keep2(run, i, j)
  }

  lemma Phase2MessageIs(run: SigningRun, i: PartyIndex, j: PartyIndex, kept: Kept1, seen: set<PartyIndex>)
    requires ValidRun(run) && Pair(run, i, j) && j in run.orders(i) && j !in seen
    requires j in kept && kept[j] == Keep1(run, i, j)
    ensures i in run.ps
    ensures Phase2Message(run.ps[i], DataOf(run, i), Unique1(run, i), kept, KeyShareOf(run, i), run.draws(i),
                          Message1(run, j, i), seen)
            == Ok((Keep2(run, i, j), Message2(run, i, j)))
  {
    hide ValidRun, MulSid, MulReceiverRun1, MulReceiverRun2, MulSenderRun, KeyShareOf;
    PairReady(run, i, j);
    PairReady(run, j, i);
    BetweenIs(run, j, i);
    BetweenIs(run, i, j);
  }

  lemma {:induction false} Phase2LoopIs(run: SigningRun, i: PartyIndex, kept: Kept1, done: seq<PartyIndex>, rest: seq<PartyIndex>)
    requires ValidRun(run) && i in run.ps && AllPairs(run, i, done + rest) && NoRepeats(done + rest)
    requires forall j :: j in done + rest ==> j in run.orders(i) && j in kept && Pair(run, i, j) && kept[j] == Keep1(run, i, j)
    ensures AllPairs(run, i, done) && AllPairs(run, i, rest)
    ensures Phase2Loop(run.ps[i], DataOf(run, i), Unique1(run, i), kept, KeyShareOf(run, i), run.draws(i),
                       Inbox1(run, i, rest), Elements(done), Kept2For(run, i, done), Messages2(run, i, done))
            == Ok((Kept2For(run, i, done + rest), Messages2(run, i, done + rest)))
    decreases |rest|
  {
    hide ValidRun, Phase2Message, Message1, Message2, Keep1, Keep2, KeyShareOf, Unique1;
    assert forall k :: 0 <= k < |done| ==> done[k] == (done + rest)[k];
    assert forall k :: 0 <= k < |rest| ==> rest[k] == (done + rest)[|done| + k];
    if rest == [] {
      assert done + rest == done;
    } else {
      var j := rest[0];
      assert (done + rest)[|done|] == j && j in done + rest;
      var seen := Elements(done);
      assert j !in done;
      Phase2MessageIs(run, i, j, kept, seen);
      var next := done + [j];
      assert next + rest[1..] == done + rest;
      Phase2LoopIs(run, i, kept, next, rest[1..]);
      assert Inbox1(run, i, rest)[1..] == Inbox1(run, i, rest[1..]);
      SenderOfMessage1(run, j, i);
      assert seen + {j} == Elements(next);
      assert Kept2For(run, i, done)[j := Keep2(run, i, j)] == Kept2For(run, i, next);
      assert Messages2(run, i, done) + [Message2(run, i, j)] == Messages2(run, i, next);
    }
  }

  lemma SenderOfMessage1(run: SigningRun, i: PartyIndex, j: PartyIndex)
    requires ValidRun(run) && Pair(run, i, j)
    ensures Message1(run, i, j).parties == PartiesMessage(i, j)
  {
    hide ValidRun;
  }
}
