/** What acceptance in phases 2 and 3 of signing says about the messages, in whatever order they arrive. */
module SigningMessages {
  import opened Outcomes
  import opened PrimeField
  import opened Sums
  import opened Hashes
  import opened Curve
  import opened Sequences
  import opened Multiplication
  import opened Protocols
  import opened Ecdsa
  import opened Signing

  function SenderOf1(m: TransmitPhase1to2): PartyIndex {
    m.parties.sender
  }

  function SenderOf2(m: TransmitPhase2to3): PartyIndex {
    m.parties.sender
  }

  // Phase 2

  lemma {:induction false} Phase2LoopSenders(party: Party, data: SignData, unique: UniqueKeep1to2, kept: Kept1, key_share: Scalar,
                                             draws: SignDraws, received: seq<TransmitPhase1to2>, seen: set<PartyIndex>,
                                             keep: Kept2, transmit: seq<TransmitPhase2to3>)
    requires keep.Keys == seen
    requires Phase2Loop(party, data, unique, kept, key_share, draws, received, seen, keep, transmit).Ok?
    ensures var senders := Mapped(SenderOf1, received);
      && NoRepeats(senders)
      && (forall c :: c in senders ==> c in data.counterparties && c !in seen)
      && (forall m :: m in received ==> m.parties.receiver == party.party_index)
      && Phase2Loop(party, data, unique, kept, key_share, draws, received, seen, keep, transmit).value.0.Keys
         == seen + set c | c in senders
  {
    hide Phase2Message;
    if received != [] {
      var c := received[0].parties.sender;
      Phase2Routing(party, data, unique, kept, key_share, draws, received[0], seen);
      var r := Phase2Message(party, data, unique, kept, key_share, draws, received[0], seen);
      Phase2LoopSenders(party, data, unique, kept, key_share, draws, received[1..], seen + {c}, keep[c := r.value.0], transmit + [r.value.1]);
      MappedCons(SenderOf1, received);
      assert SenderOf1(received[0]) == c;
      assert received == [received[0]] + received[1..];
    }
  }

  lemma Phase2Routing(party: Party, data: SignData, unique: UniqueKeep1to2, kept: Kept1, key_share: Scalar,
                      draws: SignDraws, m: TransmitPhase1to2, seen: set<PartyIndex>)
    requires Phase2Message(party, data, unique, kept, key_share, draws, m, seen).Ok?
    ensures m.parties.sender in data.counterparties && m.parties.receiver == party.party_index && m.parties.sender !in seen
  {}

  /** Phase 2 succeeds only on exactly one message from each counterparty, addressed to this party. */
  lemma Phase2EachOnce(party: Party, data: SignData, unique: UniqueKeep1to2, kept: Kept1, draws: SignDraws,
                       received: seq<TransmitPhase1to2>)
    requires Phase2Outcome(party, data, unique, kept, draws, received).Ok?
    ensures multiset(Mapped(SenderOf1, received)) == multiset(data.counterparties)
    ensures NoRepeats(data.counterparties)
    ensures forall m :: m in received ==> m.parties.receiver == party.party_index
    ensures Phase2Outcome(party, data, unique, kept, draws, received).value.1.Keys == set c | c in data.counterparties
  {
    hide Phase2Loop, KeyShare;
    var key_share := KeyShare(party, data.counterparties, unique.zeta).value;
    Phase2LoopSenders(party, data, unique, kept, key_share, draws, received, {}, map[], []);
    var senders := Mapped(SenderOf1, received);
    Pigeonhole(senders, data.counterparties);
    NoRepeatsPermuted(senders, data.counterparties);
    forall c ensures c in senders <==> c in data.counterparties {
      assert c in multiset(senders) <==> c in multiset(data.counterparties);
    }
  }

  // Phase 3

  /** Whether a message is acceptable on its own. */
  ghost predicate Acceptable(party: Party, data: SignData, kept: Kept2, m: TransmitPhase2to3)
  {
    && m.parties.sender in data.counterparties && m.parties.receiver == party.party_index
    && m.body.instance_point != IDENTITY && Phase3Content(party, data, kept, m).Ok?
  }

  function PublicLog(m: TransmitPhase2to3): Scalar { m.body.public_share.log }

  function InstanceLog(m: TransmitPhase2to3): Scalar { m.body.instance_point.log }

  function Psi(m: TransmitPhase2to3): Scalar { m.body.psi }

  ghost function USummand(party: Party, data: SignData, kept: Kept2, m: TransmitPhase2to3): Scalar
  {
    var d := Phase3Content(party, data, kept, m);
    if m.parties.sender in kept && d.Ok? then Add(kept[m.parties.sender].c_u, d.value.0) else 0
  }

  ghost function VSummand(party: Party, data: SignData, kept: Kept2, m: TransmitPhase2to3): Scalar
  {
    var d := Phase3Content(party, data, kept, m);
    if m.parties.sender in kept && d.Ok? then Add(kept[m.parties.sender].c_v, d.value.1) else 0
  }

  ghost function USummands(party: Party, data: SignData, kept: Kept2): TransmitPhase2to3 -> Scalar
  {
    m => USummand(party, data, kept, m)
  }

  ghost function VSummands(party: Party, data: SignData, kept: Kept2): TransmitPhase2to3 -> Scalar
  {
    m => VSummand(party, data, kept, m)
  }

  ghost function SumOver<T>(f: T -> Scalar, s: seq<T>): Scalar {
    Sum(Mapped(f, s))
  }

  lemma {:induction false} SumCons(x: Scalar, s: seq<Scalar>)
    ensures Sum([x] + s) == Add(x, Sum(s))
  {
    var t := [x] + s;
    SumSplit(t, 0);
    assert Without(t, 0) == s;
    Commute(x, Sum(s));
  }

  lemma SumOverCons<T>(f: T -> Scalar, s: seq<T>, a: Scalar)
    requires s != []
    ensures Add(a, SumOver(f, s)) == Add(Add(a, f(s[0])), SumOver(f, s[1..]))
  {
    assert Mapped(f, s) == [f(s[0])] + Mapped(f, s[1..]);
    SumCons(f(s[0]), Mapped(f, s[1..]));
    AddAssoc(a, f(s[0]), SumOver(f, s[1..]));
  }

  lemma SumOverPermuted<T>(f: T -> Scalar, s: seq<T>, t: seq<T>)
    requires multiset(s) == multiset(t)
    ensures SumOver(f, s) == SumOver(f, t)
  {
    MappedPermuted(f, s, t);
    Permuted(Mapped(f, s), Mapped(f, t));
  }

  /** The initial sums plus those over all messages. */
  ghost function ClosedTotals(party: Party, data: SignData, kept: Kept2, received: seq<TransmitPhase2to3>, t: Totals): Totals
  {
    Totals(Point(Add(t.public_key.log, SumOver(PublicLog, received))), Point(Add(t.instance_point.log, SumOver(InstanceLog, received))),
           Add(t.psi, SumOver(Psi, received)), Add(t.u, SumOver(USummands(party, data, kept), received)),
           Add(t.v, SumOver(VSummands(party, data, kept), received)))
  }

  lemma ClosedStep(party: Party, data: SignData, kept: Kept2, received: seq<TransmitPhase2to3>, t: Totals)
    requires received != [] && Acceptable(party, data, kept, received[0])
    ensures received[0].parties.sender in kept
    ensures ClosedTotals(party, data, kept, received, t)
            == ClosedTotals(party, data, kept, received[1..],
                            AddMessage(t, kept, received[0], Phase3Content(party, data, kept, received[0]).value))
  {
    AcceptableIsKept(party, data, kept, received[0]);
    hide SumOver, Phase3Content;
    var m := received[0];
    var d := Phase3Content(party, data, kept, m).value;
    SumOverCons(PublicLog, received, t.public_key.log);
    SumOverCons(InstanceLog, received, t.instance_point.log);
    SumOverCons(Psi, received, t.psi);
    SumOverCons(USummands(party, data, kept), received, t.u);
    SumOverCons(VSummands(party, data, kept), received, t.v);
    AddAssoc(t.u, kept[m.parties.sender].c_u, d.0);
    AddAssoc(t.v, kept[m.parties.sender].c_v, d.1);
  }

  lemma AcceptableIsKept(party: Party, data: SignData, kept: Kept2, m: TransmitPhase2to3)
    requires Acceptable(party, data, kept, m)
    ensures m.parties.sender in kept
  {}

  lemma ClosedEmpty(party: Party, data: SignData, kept: Kept2, t: Totals)
    ensures ClosedTotals(party, data, kept, [], t) == t
  {
    Identities(t.public_key.log);
    Identities(t.instance_point.log);
    Identities(t.psi);
    Identities(t.u);
    Identities(t.v);
  }

  lemma MessageMeaning(party: Party, data: SignData, kept: Kept2, m: TransmitPhase2to3, seen: set<PartyIndex>)
    ensures Phase3Message(party, data, kept, m, seen).Ok? <==> Acceptable(party, data, kept, m) && m.parties.sender !in seen
    ensures Phase3Message(party, data, kept, m, seen).Ok? ==>
      Phase3Message(party, data, kept, m, seen) == Phase3Content(party, data, kept, m)
  {
    hide Phase3Content;
  }

  ghost predicate AllAcceptable(party: Party, data: SignData, kept: Kept2, received: seq<TransmitPhase2to3>,
                                seen: set<PartyIndex>)
  {
    && (forall m :: m in received ==> Acceptable(party, data, kept, m) && m.parties.sender !in seen)
    && NoRepeats(Mapped(SenderOf2, received))
  }

  /** The loop of phase 3 accepts just when every message is acceptable on its own and no sender repeats,
      and then accumulates sums over the messages. */
  lemma {:induction false} Phase3LoopMeaning(party: Party, data: SignData, kept: Kept2, received: seq<TransmitPhase2to3>,
                                             seen: set<PartyIndex>, t: Totals)
    ensures Phase3Loop(party, data, kept, received, seen, t).Ok? <==> AllAcceptable(party, data, kept, received, seen)
    ensures Phase3Loop(party, data, kept, received, seen, t).Ok? ==>
      Phase3Loop(party, data, kept, received, seen, t).value == ClosedTotals(party, data, kept, received, t)
  {
    hide Acceptable, Phase3Message, ClosedTotals, Phase3Content;
    if received == [] {
      ClosedEmpty(party, data, kept, t);
    } else {
      var c := received[0].parties.sender;
      MessageMeaning(party, data, kept, received[0], seen);
      assert received == [received[0]] + received[1..];
      SendersCons(received);
      if Acceptable(party, data, kept, received[0]) && c !in seen {
        ClosedStep(party, data, kept, received, t);
        var t' := AddMessage(t, kept, received[0], Phase3Content(party, data, kept, received[0]).value);
        Phase3LoopMeaning(party, data, kept, received[1..], seen + {c}, t');
        AcceptableTail(party, data, kept, received, seen);
      }
    }
  }

  lemma AcceptableTail(party: Party, data: SignData, kept: Kept2, received: seq<TransmitPhase2to3>, seen: set<PartyIndex>)
    requires received != []
    requires Acceptable(party, data, kept, received[0]) && received[0].parties.sender !in seen
    ensures AllAcceptable(party, data, kept, received, seen)
       <==> AllAcceptable(party, data, kept, received[1..], seen + {received[0].parties.sender})
  {
    hide Acceptable;
    var c := received[0].parties.sender;
    var rest := received[1..];
    var tail := Mapped(SenderOf2, rest);
    SendersCons(received);
    NoRepeatsCons(c, tail);
    assert received == [received[0]] + rest;
    SenderIn(rest, c);
  }

  lemma SendersCons(received: seq<TransmitPhase2to3>)
    requires received != []
    ensures Mapped(SenderOf2, received) == [received[0].parties.sender] + Mapped(SenderOf2, received[1..])
  {
    MappedCons(SenderOf2, received);
    assert SenderOf2(received[0]) == received[0].parties.sender;
  }

  lemma SenderAt(received: seq<TransmitPhase2to3>, i: nat)
    requires i < |received|
    ensures Mapped(SenderOf2, received)[i] == received[i].parties.sender
  {
    assert SenderOf2(received[i]) == received[i].parties.sender;
  }

  lemma SenderIn(received: seq<TransmitPhase2to3>, c: PartyIndex)
    ensures c in Mapped(SenderOf2, received) <==> exists m :: m in received && m.parties.sender == c
  {
    if m :| m in received && m.parties.sender == c {
      var i :| 0 <= i < |received| && received[i] == m;
      SenderAt(received, i);
    }
    if c in Mapped(SenderOf2, received) {
      var i :| 0 <= i < |received| && Mapped(SenderOf2, received)[i] == c;
      SenderAt(received, i);
      assert received[i] in received;
    }
  }

  /** Phase 3 succeeds only on exactly one message from each counterparty, addressed to this party. */
  lemma Phase3EachOnce(party: Party, data: SignData, unique: UniqueKeep2to3, kept: Kept2, received: seq<TransmitPhase2to3>)
    requires Phase3Outcome(party, data, unique, kept, received).Ok?
    ensures multiset(Mapped(SenderOf2, received)) == multiset(data.counterparties) && NoRepeats(data.counterparties)
    ensures forall m :: m in received ==> Acceptable(party, data, kept, m)
  {
    hide Acceptable, Phase3Loop;
    Phase3LoopMeaning(party, data, kept, received, {}, InitialTotals(unique));
    var senders := Mapped(SenderOf2, received);
    forall c | c in senders ensures c in data.counterparties {
      var i :| 0 <= i < |received| && senders[i] == c;
      SenderAt(received, i);
      assert received[i] in received;
      AcceptableSender(party, data, kept, received[i]);
    }
    Pigeonhole(senders, data.counterparties);
    NoRepeatsPermuted(senders, data.counterparties);
  }

  lemma AcceptableSender(party: Party, data: SignData, kept: Kept2, m: TransmitPhase2to3)
    requires Acceptable(party, data, kept, m)
    ensures m.parties.sender in data.counterparties
  {}

  /** The x coordinate and the broadcast of phase 3 are the same for every order of an accepted slice. */
  lemma Phase3AnyOrder(party: Party, data: SignData, unique: UniqueKeep2to3, kept: Kept2,
                       received: seq<TransmitPhase2to3>, permuted: seq<TransmitPhase2to3>)
    requires Phase3Outcome(party, data, unique, kept, received).Ok?
    requires multiset(received) == multiset(permuted)
    ensures Phase3Outcome(party, data, unique, kept, permuted) == Phase3Outcome(party, data, unique, kept, received)
  {
    hide Acceptable, Phase3Loop, USummands, VSummands;
    var t := InitialTotals(unique);
    Phase3LoopMeaning(party, data, kept, received, {}, t);
    Phase3LoopMeaning(party, data, kept, permuted, {}, t);
    assert |received| == |multiset(received)| == |multiset(permuted)| == |permuted|;
    forall m ensures m in received <==> m in permuted {
      assert m in multiset(received) <==> m in multiset(permuted);
    }
    MappedPermuted(SenderOf2, received, permuted);
    NoRepeatsPermuted(Mapped(SenderOf2, received), Mapped(SenderOf2, permuted));
    SumOverPermuted(PublicLog, received, permuted);
    SumOverPermuted(InstanceLog, received, permuted);
    SumOverPermuted(Psi, received, permuted);
    SumOverPermuted(USummands(party, data, kept), received, permuted);
    SumOverPermuted(VSummands(party, data, kept), received, permuted);
  }
}
