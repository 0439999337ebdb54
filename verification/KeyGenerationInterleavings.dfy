/** All interleavings of the sessions of n parties that generate a key, with every message delivered to the
    party it is addressed to, in any order. */
module KeyGenerationInterleavings {
  import opened Outcomes
  import opened PrimeField
  import opened Sums
  import opened Polynomials
  import opened Hashes
  import opened Curve
  import opened Sequences
  import opened Proofs
  import opened Shamir
  import opened Protocols
  import opened ZeroShares
  import opened PartyStates
  import opened KeyGenerationSteps
  import opened KeyGeneration
  import opened KeyGenerationFinish
  import opened KeyGenerationRuns
  import opened DkgSessions
  import opened Network

  /** Where a party stands: before phase 1, after phase 1, 2 or 3, finished, or aborted. */
  datatype Member =
    | Idle
    | Ready2(session: DkgState)
    | Ready3(session: DkgState)
    | Ready4(session: DkgState)
    | Finished(party: Party, package: PublicKeyPackage)
    | Aborted

  datatype System = System(
    members: map<PartyIndex, Member>, fragments: map<Channel, Scalar>,
    pcs: map<PartyIndex, ProofCommitment>, zero2: map<Channel, Transmit<HashOutput>>, bip2: Commitments,
    zero3: map<Channel, Transmit<ZeroBody3>>, mul: map<Channel, Transmit<MulBody>>, bip3: map<PartyIndex, ChainBody3>)

  ghost function Initial(run: DkgRun): System
    requires Count(run) <= 255
  {
    System(map i: PartyIndex | i in Everybody(Count(run)) :: Idle, map[], map[], map[], map[], map[], map[], map[])
  }

  /** Fragment j goes to party j, the sender's own fragment included. */
  function PostFragments(sent: map<Channel, Scalar>, i: PartyIndex, values: seq<Scalar>): map<Channel, Scalar>
    requires |values| <= 255
  {
    if values == [] then sent
    else PostFragments(sent, i, values[..|values| - 1])[(i, |values|) := values[|values| - 1]]
  }

  ghost predicate First(run: DkgRun, s: System, s': System, i: PartyIndex)
    requires HasPolynomials(run) && i in s.members
  {
    && s.members[i].Idle?
    && s' == s.(members := s.members[i := Ready2(NewState())],
                fragments := PostFragments(s.fragments, i, Values(run.polynomials(i), Indices(1, Count(run)))))
  }

  /** The fragments that j receives, in the given order of senders. */
  function FragmentInbox(sent: map<Channel, Scalar>, i: PartyIndex, order: seq<PartyIndex>): (f: seq<Scalar>)
    requires Arrived(sent, i, order)
    ensures |f| == |order|
  {
    seq<Scalar>(|order|, k requires 0 <= k < |order| => sent[(order[k], i)])
  }

  ghost predicate Second(run: DkgRun, s: System, s': System, i: PartyIndex, order: seq<PartyIndex>)
    requires i in s.members
  {
    && s.members[i].Ready2? && ListsEverybody(Count(run), order) && Arrived(s.fragments, i, order)
    && var (state, r) := After2(DataFor(run, i), s.members[i].session, FragmentInbox(s.fragments, i, order), run.proofs(i), run.draws(i));
       if r.Err? then s' == s.(members := s.members[i := Aborted])
       else s' == s.(members := s.members[i := Ready3(state)], pcs := s.pcs[i := r.value.pc], zero2 := Post(s.zero2, r.value.zero),
                     bip2 := s.bip2[i := r.value.cc_commitment])
  }

  ghost predicate Third(run: DkgRun, s: System, s': System, i: PartyIndex)
    requires i in s.members
  {
    && s.members[i].Ready3?
    && var (state, r) := After3(DataFor(run, i), s.members[i].session, run.draws(i));
       if r.Err? then s' == s.(members := s.members[i := Aborted])
       else s' == s.(members := s.members[i := Ready4(state)], zero3 := Post(s.zero3, r.value.zero), mul := Post(s.mul, r.value.mul),
                     bip3 := s.bip3[i := r.value.bip])
  }

  /** The orders in which the messages of phase 4 arrive. */
  datatype Arrivals = Arrivals(all: seq<PartyIndex>, zero2: seq<PartyIndex>, zero3: seq<PartyIndex>, mul: seq<PartyIndex>)

  ghost predicate AllPresent<T>(sent: map<PartyIndex, T>, n: nat) {
    forall j: PartyIndex :: j in sent <==> j <= n
  }

  ghost predicate Complete4(run: DkgRun, s: System, i: PartyIndex, a: Arrivals) {
    && AllPresent(s.pcs, Count(run)) && AllPresent(s.bip2, Count(run)) && AllPresent(s.bip3, Count(run))
    && ListsEverybody(Count(run), a.all)
    && ListsCounterparties(Count(run), i, a.zero2) && Arrived(s.zero2, i, a.zero2)
    && ListsCounterparties(Count(run), i, a.zero3) && Arrived(s.zero3, i, a.zero3)
    && ListsCounterparties(Count(run), i, a.mul) && Arrived(s.mul, i, a.mul)
  }

  ghost predicate AllIn<T>(sent: map<PartyIndex, T>, order: seq<PartyIndex>) {
    forall k :: 0 <= k < |order| ==> order[k] in sent
  }

  ghost function BroadcastInbox<T>(sent: map<PartyIndex, T>, order: seq<PartyIndex>): (m: seq<T>)
    requires AllIn(sent, order)
    ensures |m| == |order|
  {
    seq(|order|, k requires 0 <= k < |order| => sent[order[k]])
  }

  lemma EverybodyIn<T>(sent: map<PartyIndex, T>, n: nat, order: seq<PartyIndex>)
    requires AllPresent(sent, n) && ListsEverybody(n, order)
    ensures AllIn(sent, order)
  {
    forall k | 0 <= k < |order| ensures order[k] in sent {
      assert order[k] in order;
    }
  }

  ghost function Received4(run: DkgRun, s: System, i: PartyIndex, a: Arrivals): Inputs4
    requires Complete4(run, s, i, a)
  {
    EverybodyIn(s.pcs, Count(run), a.all);
    Inputs4(BroadcastInbox(s.pcs, a.all), Inbox(s.zero2, i, a.zero2), Inbox(s.zero3, i, a.zero3), Inbox(s.mul, i, a.mul), s.bip2, s.bip3)
  }

  ghost predicate Fourth(run: DkgRun, s: System, s': System, i: PartyIndex, a: Arrivals)
    requires i in s.members
  {
    && s.members[i].Ready4? && Complete4(run, s, i, a)
    && var r := After4(DataFor(run, i), s.members[i].session, Received4(run, s, i, a), run.address_fn);
       s' == s.(members := s.members[i := if r.Err? then Aborted else Finished(r.value.0, r.value.1)])
  }

  /** Party i takes its next step. */
  ghost predicate Takes(run: DkgRun, s: System, s': System, i: PartyIndex, order: seq<PartyIndex>, a: Arrivals)
    requires HasPolynomials(run)
  {
    && i in s.members
    && (First(run, s, s', i) || Second(run, s, s', i, order) || Third(run, s, s', i) || Fourth(run, s, s', i, a))
  }

  ghost predicate Next(run: DkgRun, s: System, s': System)
    requires HasPolynomials(run)
  {
    exists i, order, a :: Takes(run, s, s', i, order, a)
  }

  ghost predicate IsTrace(run: DkgRun, trace: seq<System>)
    requires HasPolynomials(run)
  {
    && |trace| > 0 && trace[0] == Initial(run)
    && forall k :: 0 <= k < |trace| - 1 ==> Next(run, trace[k], trace[k + 1])
  }

  // What holds in every reachable state

  ghost predicate InGroup(run: DkgRun, c: Channel) {
    c.0 <= Count(run) && c.1 <= Count(run)
  }

  ghost predicate FragmentsHonest(run: DkgRun, sent: map<Channel, Scalar>) {
    forall c :: c in sent ==> InGroup(run, c) && sent[c] == Eval(run.polynomials(c.0), c.1)
  }

  ghost predicate Zero2Honest(run: DkgRun, sent: map<Channel, Transmit<HashOutput>>) {
    forall c :: c in sent ==> InGroup(run, c) && sent[c] == ZeroMessage2(run.draws(c.0), c.0, c.1)
  }

  ghost function ZeroMessage3(run: DkgRun, i: PartyIndex, j: PartyIndex): Transmit<ZeroBody3> {
    Transmit(PartiesMessage(i, j), ZeroBody3(run.draws(i).seeds(j), run.draws(i).salts(j)))
  }

  ghost predicate Zero3Honest(run: DkgRun, sent: map<Channel, Transmit<ZeroBody3>>) {
    forall c :: c in sent ==> InGroup(run, c) && sent[c] == ZeroMessage3(run, c.0, c.1)
  }

  ghost predicate MulsHonest(run: DkgRun, sent: map<Channel, Transmit<MulBody>>) {
    forall c :: c in sent ==> InGroup(run, c) && sent[c] == MulMessage(run.draws(c.0).mul(c.1), c.0, c.1, run.session_id)
  }

  ghost predicate BroadcastsHonest(run: DkgRun, s: System) {
    && (forall j :: j in s.pcs ==> j <= Count(run) && s.pcs[j] == Pc(run, j))
    && (forall j :: j in s.bip2 ==> j <= Count(run) && s.bip2[j] == Commitment(run.draws(j).aux_chain_code, run.draws(j).cc_salt))
    && (forall j :: j in s.bip3 ==> j <= Count(run) && s.bip3[j] == ChainBody3(run.draws(j).aux_chain_code, run.draws(j).cc_salt))
  }

  ghost predicate SentHonest(run: DkgRun, s: System) {
    && FragmentsHonest(run, s.fragments) && Zero2Honest(run, s.zero2) && Zero3Honest(run, s.zero3) && MulsHonest(run, s.mul)
    && BroadcastsHonest(run, s)
  }

  ghost function State3(run: DkgRun, i: PartyIndex): DkgState
    requires HasPolynomials(run)
  {
    DkgState(Some(Share(run, i)), Some(Pc(run, i)), Some(ZeroKeep2(run.draws(i), Others(Count(run), i))),
             Some(ChainBody3(run.draws(i).aux_chain_code, run.draws(i).cc_salt)), None, None)
  }

  ghost function State4(run: DkgRun, i: PartyIndex): DkgState
    requires HasPolynomials(run)
  {
    DkgState(Some(Share(run, i)), Some(Pc(run, i)), None, None, Some(KeptSeeds(run, i)), Some(MulKeep(run.draws(i), Others(Count(run), i))))
  }

  ghost predicate MemberHonest(run: DkgRun, m: Member, i: PartyIndex)
    requires ValidDkg(run) && i <= Count(run)
  {
    match m
    case Idle => true
    case Ready2(state) => state == NewState()
    case Ready3(state) => state == State3(run, i)
    case Ready4(state) => state == State4(run, i)
    case Finished(party, package) => party == FinalParty(run, i) && package == FinalPackage(run)
    case Aborted => false
  }

  /** The messages of i to all others are on their channels. */
  ghost predicate PostedBy<T>(run: DkgRun, sent: map<Channel, T>, i: PartyIndex) {
    forall j: PartyIndex :: j <= Count(run) && j != i ==> (i, j) in sent
  }

  ghost predicate FragmentsBy(run: DkgRun, sent: map<Channel, Scalar>, i: PartyIndex) {
    forall j: PartyIndex :: j <= Count(run) ==> (i, j) in sent
  }

  ghost predicate MemberPosted(run: DkgRun, s: System, m: Member, i: PartyIndex) {
    && (!m.Idle? ==> FragmentsBy(run, s.fragments, i))
    && (m.Ready3? || m.Ready4? || m.Finished? ==> i in s.pcs && i in s.bip2 && PostedBy(run, s.zero2, i))
    && (m.Ready4? || m.Finished? ==> i in s.bip3 && PostedBy(run, s.zero3, i) && PostedBy(run, s.mul, i))
  }

  ghost predicate Invariant(run: DkgRun, s: System)
    requires ValidDkg(run)
  {
    && (forall i: PartyIndex :: i in s.members <==> i <= Count(run))
    && (forall i :: i in s.members ==> MemberHonest(run, s.members[i], i) && MemberPosted(run, s, s.members[i], i))
    && SentHonest(run, s)
  }

  // Posting

  lemma {:induction false} PostedFragments(sent: map<Channel, Scalar>, i: PartyIndex, values: seq<Scalar>)
    requires |values| <= 255
    ensures forall c :: c in sent ==> c in PostFragments(sent, i, values)
    ensures forall j: PartyIndex :: j <= |values| ==> (i, j) in PostFragments(sent, i, values) && PostFragments(sent, i, values)[(i, j)] == values[j - 1]
    ensures forall c :: c in PostFragments(sent, i, values) ==>
      || (c.0 == i && c.1 <= |values|)
      || (c in sent && PostFragments(sent, i, values)[c] == sent[c])
  {
    if values != [] {
      PostedFragments(sent, i, values[..|values| - 1]);
    }
  }

  lemma FragmentsKeep(run: DkgRun, sent: map<Channel, Scalar>, i: PartyIndex)
    requires HasPolynomials(run) && FragmentsHonest(run, sent) && i <= Count(run)
    ensures var posted := PostFragments(sent, i, Values(run.polynomials(i), Indices(1, Count(run))));
      && FragmentsHonest(run, posted) && FragmentsBy(run, posted, i) && forall c :: c in sent ==> c in posted
  {
    hide Eval;
    var values := Values(run.polynomials(i), Indices(1, Count(run)));
    PostedFragments(sent, i, values);
    var posted := PostFragments(sent, i, values);
    forall c | c in posted ensures InGroup(run, c) && posted[c] == Eval(run.polynomials(c.0), c.1) {
      if c.0 == i && c.1 <= Count(run) {
        assert c == (i, c.1);
        assert posted[(i, c.1)] == values[c.1 - 1];
      }
    }
  }

  lemma Zero2Keep(run: DkgRun, sent: map<Channel, Transmit<HashOutput>>, i: PartyIndex)
    requires HasPolynomials(run) && Zero2Honest(run, sent) && i <= Count(run)
    ensures var posted := Post(sent, ZeroTransmit2(run.draws(i), i, Others(Count(run), i)));
      && Zero2Honest(run, posted) && PostedBy(run, posted, i) && forall c :: c in sent ==> c in posted
  {
    hide ZeroMessage2;
    var order := Others(Count(run), i);
    var messages := ZeroTransmit2(run.draws(i), i, order);
    hide Others;
    forall k | 0 <= k < |order| ensures order[k] <= Count(run) && messages[k].parties == PartiesMessage(i, order[k]) {
      assert order[k] in order;
      ZeroParties(run, i, order[k]);
    }
    PostFrom(sent, i, order, messages);
  }

  lemma ZeroParties(run: DkgRun, i: PartyIndex, j: PartyIndex)
    ensures ZeroMessage2(run.draws(i), i, j).parties == PartiesMessage(i, j)
    ensures ZeroMessage3(run, i, j).parties == PartiesMessage(i, j)
  {}

  lemma TransmitTargets(run: DkgRun, i: PartyIndex)
    requires HasPolynomials(run) && i <= Count(run)
    ensures var kept := ZeroKeep2(run.draws(i), Others(Count(run), i));
      var order := Ascending(kept.Keys, 255);
      && (forall j: PartyIndex :: j in order <==> j <= Count(run) && j != i)
      && (forall j :: j in order ==> j in kept && kept[j] == ZeroBody3(run.draws(i).seeds(j), run.draws(i).salts(j)))
  {}

  lemma Zero3Keep(run: DkgRun, sent: map<Channel, Transmit<ZeroBody3>>, i: PartyIndex)
    requires HasPolynomials(run) && Zero3Honest(run, sent) && i <= Count(run)
    ensures var kept := ZeroKeep2(run.draws(i), Others(Count(run), i));
      var posted := Post(sent, ZeroTransmit3(i, kept, Ascending(kept.Keys, 255)));
      && Zero3Honest(run, posted) && PostedBy(run, posted, i) && forall c :: c in sent ==> c in posted
  {
    TransmitTargets(run, i);
    var kept := ZeroKeep2(run.draws(i), Others(Count(run), i));
    var order := Ascending(kept.Keys, 255);
    var messages := ZeroTransmit3(i, kept, order);
    forall k | 0 <= k < |order| ensures order[k] <= Count(run) && messages[k] == ZeroMessage3(run, i, order[k]) {
      assert order[k] in order;
    }
    hide ZeroKeep2, Others, Ascending, ZeroTransmit3, ZeroMessage3;
    forall k | 0 <= k < |order| ensures messages[k].parties == PartiesMessage(i, order[k]) {
      ZeroParties(run, i, order[k]);
    }
    PostFrom(sent, i, order, messages);
  }

  lemma MulKeeps(run: DkgRun, sent: map<Channel, Transmit<MulBody>>, i: PartyIndex)
    requires HasPolynomials(run) && MulsHonest(run, sent) && i <= Count(run)
    ensures var posted := Post(sent, MulTransmit(run.draws(i), i, run.session_id, Others(Count(run), i)));
      && MulsHonest(run, posted) && PostedBy(run, posted, i) && forall c :: c in sent ==> c in posted
  {
    hide MulMessage;
    var order := Others(Count(run), i);
    var messages := MulTransmit(run.draws(i), i, run.session_id, order);
    hide Others;
    forall k | 0 <= k < |order| ensures order[k] <= Count(run) && messages[k].parties == PartiesMessage(i, order[k]) {
      assert order[k] in order;
      MulMessageParties(run, i, order[k]);
    }
    PostFrom(sent, i, order, messages);
  }

  // The steps

  /** A step that changes one member, only adds messages and keeps that member honest keeps the rest. */
  lemma Rest(run: DkgRun, s: System, s': System, i: PartyIndex)
    requires ValidDkg(run) && Invariant(run, s) && i in s.members
    requires s'.members.Keys == s.members.Keys && forall j :: j in s.members && j != i ==> s'.members[j] == s.members[j]
    requires Grows(s, s')
    requires MemberHonest(run, s'.members[i], i) && MemberPosted(run, s', s'.members[i], i) && SentHonest(run, s')
    ensures Invariant(run, s')
  {
    hide ValidDkg, SentHonest, MemberHonest;
    forall j | j in s'.members ensures MemberHonest(run, s'.members[j], j) && MemberPosted(run, s', s'.members[j], j) {
      assert MemberHonest(run, s.members[j], j) && MemberPosted(run, s, s.members[j], j);
    }
  }

  ghost predicate Grows(s: System, s': System) {
    && (forall c :: c in s.fragments ==> c in s'.fragments) && (forall c :: c in s.zero2 ==> c in s'.zero2)
    && (forall c :: c in s.zero3 ==> c in s'.zero3) && (forall c :: c in s.mul ==> c in s'.mul)
    && s.pcs.Keys <= s'.pcs.Keys && s.bip2.Keys <= s'.bip2.Keys && s.bip3.Keys <= s'.bip3.Keys
  }

  /** The state after party i has taken phase 1. */
  ghost function Done1(run: DkgRun, s: System, i: PartyIndex): System
    requires HasPolynomials(run)
  {
    s.(members := s.members[i := Ready2(NewState())],
       fragments := PostFragments(s.fragments, i, Values(run.polynomials(i), Indices(1, Count(run)))))
  }

  lemma Done1Sent(run: DkgRun, s: System, i: PartyIndex)
    requires HasPolynomials(run) && SentHonest(run, s) && i <= Count(run)
    ensures SentHonest(run, Done1(run, s, i)) && Grows(s, Done1(run, s, i)) && FragmentsBy(run, Done1(run, s, i).fragments, i)
  {
    hide FragmentsHonest, Zero2Honest, Zero3Honest, MulsHonest, PostFragments, Commitment, Pc, FragmentsBy, HasPolynomials;
    FragmentsKeep(run, s.fragments, i);
  }

  lemma FirstKeeps(run: DkgRun, s: System, s': System, i: PartyIndex)
    requires ValidDkg(run) && HasPolynomials(run) && Invariant(run, s) && i in s.members && First(run, s, s', i)
    ensures Invariant(run, s')
  {
    hide ValidDkg, SentHonest, State3, State4, PostFragments, FragmentsBy, PostedBy, Grows, HasPolynomials;
    assert s' == Done1(run, s, i);
    Done1Sent(run, s, i);
    Rest(run, s, s', i);
  }

  lemma SecondResult(run: DkgRun, i: PartyIndex, order: seq<PartyIndex>)
    requires ValidDkg(run) && ListsEverybody(Count(run), order)
    ensures After2(DataFor(run, i), NewState(), Fragments(run, i, order), run.proofs(i), run.draws(i))
            == (State3(run, i), Ok(Output2(Pc(run, i), ZeroTransmit2(run.draws(i), i, Others(Count(run), i)),
                                           Commitment(run.draws(i).aux_chain_code, run.draws(i).cc_salt))))
  {
    hide ProofsAccepted, Share, Others, ZeroKeep2, ZeroTransmit2, Commitment, ProofCommitmentHash, Fragments;
    FragmentsAddUp(run, i, order);
  }

  lemma Basics(run: DkgRun)
    requires ValidDkg(run)
    ensures HasPolynomials(run)
  {
    hide ProofsAccepted, Share;
  }

  /** The state after party i has taken phase 2. */
  ghost function Done2(run: DkgRun, s: System, i: PartyIndex): System
    requires HasPolynomials(run)
  {
    s.(members := s.members[i := Ready3(State3(run, i))], pcs := s.pcs[i := Pc(run, i)],
       zero2 := Post(s.zero2, ZeroTransmit2(run.draws(i), i, Others(Count(run), i))),
       bip2 := s.bip2[i := Commitment(run.draws(i).aux_chain_code, run.draws(i).cc_salt)])
  }

  lemma SecondIs(run: DkgRun, s: System, s': System, i: PartyIndex, order: seq<PartyIndex>)
    requires ValidDkg(run) && Invariant(run, s) && i in s.members && Second(run, s, s', i, order)
    ensures HasPolynomials(run) && s' == Done2(run, s, i)
  {
    Basics(run);
    hide ValidDkg, FragmentsBy, Zero2Honest, Zero3Honest, MulsHonest, After2, State4, Eval, Share, State3, Post,
         ZeroTransmit2, Others, ListsEverybody, Commitment, Pc;
    assert MemberHonest(run, s.members[i], i);
    assert FragmentInbox(s.fragments, i, order) == Fragments(run, i, order);
    SecondResult(run, i, order);
  }

  lemma Done2Sent(run: DkgRun, s: System, i: PartyIndex)
    requires HasPolynomials(run) && SentHonest(run, s) && i <= Count(run)
    ensures SentHonest(run, Done2(run, s, i)) && Grows(s, Done2(run, s, i)) && PostedBy(run, Done2(run, s, i).zero2, i)
  {
    hide FragmentsHonest, Zero2Honest, Zero3Honest, MulsHonest, State3, Post, ZeroTransmit2, Others, Commitment, Pc,
         PostedBy, HasPolynomials;
    Zero2Keep(run, s.zero2, i);
  }

  lemma Done2Keeps(run: DkgRun, s: System, i: PartyIndex)
    requires ValidDkg(run) && HasPolynomials(run) && Invariant(run, s) && i in s.members
    requires s.members[i].Ready2? && MemberPosted(run, s, s.members[i], i)
    ensures Invariant(run, Done2(run, s, i))
  {
    hide ValidDkg, FragmentsBy, SentHonest, State3, State4, Post, ZeroTransmit2, Others, Commitment, Pc, PostedBy, Grows,
         HasPolynomials;
    Done2Sent(run, s, i);
    Rest(run, s, Done2(run, s, i), i);
  }

  lemma SecondKeeps(run: DkgRun, s: System, s': System, i: PartyIndex, order: seq<PartyIndex>)
    requires ValidDkg(run) && Invariant(run, s) && i in s.members && Second(run, s, s', i, order)
    ensures Invariant(run, s')
  {
    hide ValidDkg, Invariant, Done2, MemberPosted, HasPolynomials, Second;
    SecondIs(run, s, s', i, order);
    ReadyToTake2(run, s, s', i, order);
    Done2Keeps(run, s, i);
  }

  lemma ReadyToTake2(run: DkgRun, s: System, s': System, i: PartyIndex, order: seq<PartyIndex>)
    requires ValidDkg(run) && Invariant(run, s) && i in s.members && Second(run, s, s', i, order)
    ensures MemberPosted(run, s, s.members[i], i) && s.members[i].Ready2?
  {
    hide ValidDkg, FragmentsBy, SentHonest, After2, PostedBy, MemberHonest;
  }

  lemma ThirdResult(run: DkgRun, i: PartyIndex)
    requires ValidDkg(run)
    ensures var kept := ZeroKeep2(run.draws(i), Others(Count(run), i));
      After3(DataFor(run, i), State3(run, i), run.draws(i))
      == (State4(run, i), Ok(Output3(ZeroTransmit3(i, kept, Ascending(kept.Keys, 255)),
                                     MulTransmit(run.draws(i), i, run.session_id, Others(Count(run), i)),
                                     ChainBody3(run.draws(i).aux_chain_code, run.draws(i).cc_salt))))
  {
    hide ValidDkg, Share, Others, ZeroKeep2, ZeroTransmit3, MulTransmit, MulKeep, Ascending, SeedsOf, Pc;
  }

  /** The state after party i has taken phase 3. */
  ghost function Done3(run: DkgRun, s: System, i: PartyIndex): System
    requires HasPolynomials(run)
  {
    var kept := ZeroKeep2(run.draws(i), Others(Count(run), i));
    TransmitTargets2(run, i);
    s.(members := s.members[i := Ready4(State4(run, i))],
       zero3 := Post(s.zero3, ZeroTransmit3(i, kept, Ascending(kept.Keys, 255))),
       mul := Post(s.mul, MulTransmit(run.draws(i), i, run.session_id, Others(Count(run), i))),
       bip3 := s.bip3[i := ChainBody3(run.draws(i).aux_chain_code, run.draws(i).cc_salt)])
  }

  lemma TransmitTargets2(run: DkgRun, i: PartyIndex)
    requires HasPolynomials(run)
    ensures var kept := ZeroKeep2(run.draws(i), Others(Count(run), i)); forall j :: j in Ascending(kept.Keys, 255) ==> j in kept
  {}

  lemma ThirdIs(run: DkgRun, s: System, s': System, i: PartyIndex)
    requires ValidDkg(run) && Invariant(run, s) && i in s.members && Third(run, s, s', i)
    ensures HasPolynomials(run) && s' == Done3(run, s, i) && MemberPosted(run, s, s.members[i], i) && s.members[i].Ready3?
  {
    Basics(run);
    hide ValidDkg, SentHonest, FragmentsBy, PostedBy, After3, State3, State4, Post, ZeroTransmit3, MulTransmit, Ascending,
         ZeroKeep2, Others;
    assert MemberHonest(run, s.members[i], i) && MemberPosted(run, s, s.members[i], i);
    ThirdResult(run, i);
  }

  lemma Done3Sent(run: DkgRun, s: System, i: PartyIndex)
    requires HasPolynomials(run) && SentHonest(run, s) && i <= Count(run)
    ensures SentHonest(run, Done3(run, s, i)) && Grows(s, Done3(run, s, i))
    ensures PostedBy(run, Done3(run, s, i).zero3, i) && PostedBy(run, Done3(run, s, i).mul, i)
  {
    hide FragmentsHonest, Zero2Honest, Zero3Honest, MulsHonest, State4, Post, ZeroTransmit3, MulTransmit, Others, Commitment,
         Pc, PostedBy, HasPolynomials, Ascending, ZeroKeep2, BroadcastsHonest;
    Zero3Keep(run, s.zero3, i);
    MulKeeps(run, s.mul, i);
    Done3Broadcasts(run, s, i);
  }

  lemma Done3Broadcasts(run: DkgRun, s: System, i: PartyIndex)
    requires HasPolynomials(run) && BroadcastsHonest(run, s) && i <= Count(run)
    ensures BroadcastsHonest(run, Done3(run, s, i))
  {
    hide State4, Post, ZeroTransmit3, MulTransmit, Others, Commitment, Pc, HasPolynomials, Ascending, ZeroKeep2;
  }

  lemma Done3Keeps(run: DkgRun, s: System, i: PartyIndex)
    requires ValidDkg(run) && HasPolynomials(run) && Invariant(run, s) && i in s.members
    requires s.members[i].Ready3? && MemberPosted(run, s, s.members[i], i)
    ensures Invariant(run, Done3(run, s, i))
  {
    hide ValidDkg, FragmentsBy, SentHonest, State3, State4, Post, ZeroTransmit3, MulTransmit, PostedBy, Ascending, ZeroKeep2,
         Others, Pc, Commitment, Grows, HasPolynomials;
    Done3Sent(run, s, i);
    Rest(run, s, Done3(run, s, i), i);
  }

  lemma ThirdKeeps(run: DkgRun, s: System, s': System, i: PartyIndex)
    requires ValidDkg(run) && Invariant(run, s) && i in s.members && Third(run, s, s', i)
    ensures Invariant(run, s')
  {
    hide ValidDkg, Invariant, Done3, MemberPosted, HasPolynomials, Third;
    ThirdIs(run, s, s', i);
    Done3Keeps(run, s, i);
  }

  lemma Received4Is(run: DkgRun, s: System, i: PartyIndex, a: Arrivals)
    requires ValidDkg(run) && SentHonest(run, s) && Complete4(run, s, i, a)
    ensures Received4(run, s, i, a) == Inputs(run, i, a.all, a.zero2, a.zero3, a.mul)
  {
    hide ValidDkg, Commitment, Pc, MulMessage, NoRepeats;
    EverybodyIn(s.pcs, Count(run), a.all);
    assert BroadcastInbox(s.pcs, a.all) == Pcs(run, a.all);
    assert Inbox(s.zero2, i, a.zero2) == Zero2(run, i, a.zero2);
    assert Inbox(s.zero3, i, a.zero3) == Zero3(run, i, a.zero3);
    assert Inbox(s.mul, i, a.mul) == MulIn(run, i, a.mul);
    assert s.bip2 == ChainCommitments(run) && s.bip3 == ChainOpenings(run);
  }

  lemma FourthResult(run: DkgRun, i: PartyIndex, a: Arrivals)
    requires ValidDkg(run) && i <= Count(run) && ListsEverybody(Count(run), a.all) && ListsCounterparties(Count(run), i, a.zero2)
    requires ListsCounterparties(Count(run), i, a.zero3) && ListsCounterparties(Count(run), i, a.mul)
    ensures After4(DataFor(run, i), State4(run, i), Inputs(run, i, a.all, a.zero2, a.zero3, a.mul), run.address_fn)
            == Ok((FinalParty(run, i), FinalPackage(run)))
  {
    hide ValidDkg, Share, KeptSeeds, MulKeep, Others, Inputs, ListsCounterparties, ListsEverybody, Phase4Outcome, FinalParty,
         FinalPackage, Pc;
    Phase4Honest(run, i, a.all, a.zero2, a.zero3, a.mul);
  }

  lemma FourthKeeps(run: DkgRun, s: System, s': System, i: PartyIndex, a: Arrivals)
    requires ValidDkg(run) && Invariant(run, s) && i in s.members && Fourth(run, s, s', i, a)
    ensures Invariant(run, s')
  {
    hide ValidDkg, FragmentsBy, SentHonest, After4, State3, State4, PostedBy, Inputs, Received4, FinalParty, FinalPackage,
         ListsCounterparties, ListsEverybody, AllPresent, Arrived;
    assert MemberHonest(run, s.members[i], i) && MemberPosted(run, s, s.members[i], i);
    Received4Is(run, s, i, a);
    FourthResult(run, i, a);
    SameMessages(run, s, s');
    Rest(run, s, s', i);
  }

  lemma SameMessages(run: DkgRun, s: System, s': System)
    requires SentHonest(run, s) && s' == s.(members := s'.members)
    ensures SentHonest(run, s')
  {
    hide Eval, Commitment, MulMessage, Pc;
  }

  lemma InitialHolds(run: DkgRun)
    requires ValidDkg(run)
    ensures Invariant(run, Initial(run))
  {
    hide ProofsAccepted, Share;
  }

  lemma {:induction false} AlwaysInvariant(run: DkgRun, trace: seq<System>, k: nat)
    requires ValidDkg(run) && IsTrace(run, trace) && k < |trace|
    ensures Invariant(run, trace[k])
  {
    Basics(run);
    hide ValidDkg, Invariant, First, Second, Third, Fourth, Initial, HasPolynomials;
    if k == 0 {
      InitialHolds(run);
    } else {
      AlwaysInvariant(run, trace, k - 1);
      var s, s' := trace[k - 1], trace[(k - 1) + 1];
      assert Next(run, s, s');
      var i, order, a :| Takes(run, s, s', i, order, a);
      if First(run, s, s', i) {
        FirstKeeps(run, s, s', i);
      } else if Second(run, s, s', i, order) {
        SecondKeeps(run, s, s', i, order);
      } else if Third(run, s, s', i) {
        ThirdKeeps(run, s, s', i);
      } else {
        FourthKeeps(run, s, s', i, a);
      }
    }
  }

  /** In no interleaving does a party abort, and every party that finishes has its share p(i) of the key p(0), the same
      public package and the same chain code as all others; together the parties are consistent. */
  lemma EveryInterleavingAgrees(run: DkgRun, trace: seq<System>, k: nat, i: PartyIndex)
    requires ValidDkg(run) && IsTrace(run, trace) && k < |trace| && i <= Count(run)
    ensures i in trace[k].members && !trace[k].members[i].Aborted?
    ensures trace[k].members[i].Finished? ==>
      && trace[k].members[i].party == FinalParties(run)[i] && trace[k].members[i].package == FinalPackage(run)
    ensures ConsistentParties(FinalParties(run), run.parameters, Shared(run), run.session_id, CommonChainCode(run))
  {
    hide ProofsAccepted, Share, SentHonest, State3, State4, FinalParty, FinalPackage, MemberPosted, ConsistentParties;
    AlwaysInvariant(run, trace, k);
    KeyGenerationConsistent(run);
  }

  // Every run can be continued until all parties are done

  function Stage(m: Member): nat {
    match m
    case Idle => 0
    case Ready2(_) => 1
    case Ready3(_) => 2
    case Ready4(_) => 3
    case _ => 4
  }

  function Stages(s: System): map<PartyIndex, nat> {
    map i | i in s.members :: Stage(s.members[i])
  }

  /** The number of steps that the parties have taken. */
  ghost function Steps(run: DkgRun, s: System): nat
    requires Count(run) <= 255
  {
    Total(Stages(s), Everybody(Count(run)))
  }

  /** Only member i has changed, and has advanced by one stage unless it has aborted. */
  ghost predicate Moves(s: System, s': System, i: PartyIndex) {
    && i in s.members && i in s'.members && s'.members == s.members[i := s'.members[i]]
    && (!s'.members[i].Aborted? ==> Stage(s'.members[i]) == Stage(s.members[i]) + 1)
  }

  lemma Moved(s: System, s': System, i: PartyIndex, m: Member)
    requires i in s.members && s'.members == s.members[i := m]
    requires !m.Aborted? ==> Stage(m) == Stage(s.members[i]) + 1
    ensures i in s'.members && Moves(s, s', i)
  {}

  lemma FirstMoves(run: DkgRun, s: System, s': System, i: PartyIndex)
    requires HasPolynomials(run) && i in s.members && First(run, s, s', i)
    ensures i in s'.members && Moves(s, s', i)
  {
    hide PostFragments, Moves, Eval, Values;
    Moved(s, s', i, Ready2(NewState()));
  }

  lemma SecondMoves(run: DkgRun, s: System, s': System, i: PartyIndex, order: seq<PartyIndex>)
    requires i in s.members && Second(run, s, s', i, order)
    ensures i in s'.members && Moves(s, s', i)
  {
    hide After2, Post, ListsEverybody, Arrived, FragmentInbox, DataFor, Moves;
    var (state, r) := After2(DataFor(run, i), s.members[i].session, FragmentInbox(s.fragments, i, order), run.proofs(i), run.draws(i));
    Moved(s, s', i, if r.Err? then Aborted else Ready3(state));
  }

  lemma ThirdMoves(run: DkgRun, s: System, s': System, i: PartyIndex)
    requires i in s.members && Third(run, s, s', i)
    ensures i in s'.members && Moves(s, s', i)
  {
    hide After3, Post, DataFor, Moves;
    var (state, r) := After3(DataFor(run, i), s.members[i].session, run.draws(i));
    Moved(s, s', i, if r.Err? then Aborted else Ready4(state));
  }

  lemma FourthMoves(run: DkgRun, s: System, s': System, i: PartyIndex, a: Arrivals)
    requires i in s.members && Fourth(run, s, s', i, a)
    ensures i in s'.members && Moves(s, s', i)
  {
    hide After4, Complete4, Received4, DataFor, Moves;
    var r := After4(DataFor(run, i), s.members[i].session, Received4(run, s, i, a), run.address_fn);
    Moved(s, s', i, if r.Err? then Aborted else Finished(r.value.0, r.value.1));
  }

  lemma TakesOne(run: DkgRun, s: System, s': System, i: PartyIndex, order: seq<PartyIndex>, a: Arrivals)
    requires HasPolynomials(run) && Takes(run, s, s', i, order, a)
    ensures i in s'.members && Moves(s, s', i)
  {
    hide HasPolynomials, First, Second, Third, Fourth, Moves;
    if First(run, s, s', i) {
      FirstMoves(run, s, s', i);
    } else if Second(run, s, s', i, order) {
      SecondMoves(run, s, s', i, order);
    } else if Third(run, s, s', i) {
      ThirdMoves(run, s, s', i);
    } else {
      FourthMoves(run, s, s', i, a);
    }
  }

  lemma NextAdvances(run: DkgRun, s: System, s': System)
    requires ValidDkg(run) && HasPolynomials(run) && Invariant(run, s) && Invariant(run, s') && Next(run, s, s')
    ensures Steps(run, s') == Steps(run, s) + 1
  {
    hide ProofsAccepted, Share, SentHonest, MemberPosted, Takes, Total, State3, State4, FinalParty, FinalPackage;
    var i, order, a :| Takes(run, s, s', i, order, a);
    TakesOne(run, s, s', i, order, a);
    TotalStep(Stages(s), Stages(s'), Everybody(Count(run)), i);
  }

  lemma {:induction false} StepsCounted(run: DkgRun, trace: seq<System>, k: nat)
    requires ValidDkg(run) && HasPolynomials(run) && IsTrace(run, trace) && k < |trace|
    ensures Steps(run, trace[k]) == k
  {
    Basics(run);
    hide ValidDkg, Invariant, Steps, IsTrace;
    if k == 0 {
      FirstState(run, trace);
      NoStepsYet(run);
    } else {
      StepsCounted(run, trace, k - 1);
      AlwaysInvariant(run, trace, k - 1);
      AlwaysInvariant(run, trace, k);
      StepAt(run, trace, k);
      NextAdvances(run, trace[k - 1], trace[k]);
    }
  }

  lemma FirstState(run: DkgRun, trace: seq<System>)
    requires HasPolynomials(run) && IsTrace(run, trace)
    ensures trace[0] == Initial(run)
  {
    hide HasPolynomials, Next, Initial;
  }

  lemma StepAt(run: DkgRun, trace: seq<System>, k: nat)
    requires HasPolynomials(run) && IsTrace(run, trace) && 0 < k < |trace|
    ensures Next(run, trace[k - 1], trace[k])
  {
    hide HasPolynomials, Next, Initial;
    assert trace[(k - 1) + 1] == trace[k];
  }

  lemma NoStepsYet(run: DkgRun)
    requires Count(run) <= 255
    ensures Steps(run, Initial(run)) == 0
  {
    TotalZero(Stages(Initial(run)), Everybody(Count(run)));
  }

  ghost predicate AllFinished(s: System) {
    forall i :: i in s.members ==> s.members[i].Finished?
  }

  lemma AllAtEnd(run: DkgRun, s: System)
    requires ValidDkg(run) && HasPolynomials(run) && Invariant(run, s)
    ensures Steps(run, s) <= 4 * Count(run)
    ensures Steps(run, s) == 4 * Count(run) ==> AllFinished(s)
  {
    hide ValidDkg, SentHonest, MemberPosted, State3, State4, FinalParty, FinalPackage, Total, HasPolynomials;
    TotalBound(Stages(s), Everybody(Count(run)), 4);
    forall i | i in s.members ensures i in Everybody(Count(run)) && !s.members[i].Aborted? {
      assert MemberHonest(run, s.members[i], i);
    }
  }

  /** No run is longer than four steps per party, and a run of that length leaves every party with its share. */
  lemma RunsEnd(run: DkgRun, trace: seq<System>)
    requires ValidDkg(run) && IsTrace(run, trace)
    ensures |trace| <= 4 * Count(run) + 1
    ensures |trace| == 4 * Count(run) + 1 ==> AllFinished(trace[|trace| - 1])
  {
    Basics(run);
    hide ValidDkg, Next, Invariant, AllFinished, Steps, HasPolynomials;
    var k := |trace| - 1;
    StepsCounted(run, trace, k);
    AlwaysInvariant(run, trace, k);
    AllAtEnd(run, trace[k]);
  }

  lemma CanFirst(run: DkgRun, s: System, i: PartyIndex) returns (s': System)
    requires HasPolynomials(run) && i <= Count(run) && i in s.members && s.members[i].Idle?
    ensures Next(run, s, s')
  {
    s' := s.(members := s.members[i := Ready2(NewState())],
             fragments := PostFragments(s.fragments, i, Values(run.polynomials(i), Indices(1, Count(run)))));
    assert Takes(run, s, s', i, [], Arrivals([], [], [], []));
  }

  lemma CanSecond(run: DkgRun, s: System, i: PartyIndex) returns (s': System)
    requires HasPolynomials(run) && i in s.members && s.members[i].Ready2?
    requires forall j: PartyIndex :: j <= Count(run) ==> (j, i) in s.fragments
    ensures Next(run, s, s')
  {
    hide After2, Post;
    var order := Everybody(Count(run));
    forall k | 0 <= k < |order| ensures (order[k], i) in s.fragments {
      assert order[k] in order;
    }
    var (state, r) := After2(DataFor(run, i), s.members[i].session, FragmentInbox(s.fragments, i, order), run.proofs(i), run.draws(i));
    s' := if r.Err? then s.(members := s.members[i := Aborted])
          else s.(members := s.members[i := Ready3(state)], pcs := s.pcs[i := r.value.pc], zero2 := Post(s.zero2, r.value.zero),
                  bip2 := s.bip2[i := r.value.cc_commitment]);
    assert Takes(run, s, s', i, order, Arrivals([], [], [], []));
  }

  lemma CanThird(run: DkgRun, s: System, i: PartyIndex) returns (s': System)
    requires HasPolynomials(run) && i in s.members && s.members[i].Ready3?
    ensures Next(run, s, s')
  {
    hide After3, Post;
    var (state, r) := After3(DataFor(run, i), s.members[i].session, run.draws(i));
    s' := if r.Err? then s.(members := s.members[i := Aborted])
          else s.(members := s.members[i := Ready4(state)], zero3 := Post(s.zero3, r.value.zero), mul := Post(s.mul, r.value.mul),
                  bip3 := s.bip3[i := r.value.bip]);
    assert Takes(run, s, s', i, [], Arrivals([], [], [], []));
  }

  lemma CanFourth(run: DkgRun, s: System, i: PartyIndex) returns (s': System)
    requires HasPolynomials(run) && i <= Count(run) && i in s.members && s.members[i].Ready4?
    requires AllPresent(s.pcs, Count(run)) && AllPresent(s.bip2, Count(run)) && AllPresent(s.bip3, Count(run))
    requires forall j: PartyIndex :: j <= Count(run) && j != i ==> (j, i) in s.zero2 && (j, i) in s.zero3 && (j, i) in s.mul
    ensures Next(run, s, s')
  {
    hide After4;
    var others := Others(Count(run), i);
    forall k | 0 <= k < |others| ensures (others[k], i) in s.zero2 && (others[k], i) in s.zero3 && (others[k], i) in s.mul {
      assert others[k] in others;
    }
    var a := Arrivals(Everybody(Count(run)), others, others, others);
    assert Complete4(run, s, i, a);
    var r := After4(DataFor(run, i), s.members[i].session, Received4(run, s, i, a), run.address_fn);
    s' := s.(members := s.members[i := if r.Err? then Aborted else Finished(r.value.0, r.value.1)]);
    assert Takes(run, s, s', i, [], a);
  }

  /** Nobody is before phase 3, and everything of phase 2 and 3 has been sent: party i can finish. */
  lemma ReadyToFinish(run: DkgRun, s: System, i: PartyIndex)
    requires ValidDkg(run) && HasPolynomials(run) && Invariant(run, s) && i <= Count(run)
    requires forall j :: j in s.members ==> s.members[j].Ready4? || s.members[j].Finished?
    ensures AllPresent(s.pcs, Count(run)) && AllPresent(s.bip2, Count(run)) && AllPresent(s.bip3, Count(run))
    ensures forall j: PartyIndex :: j <= Count(run) && j != i ==> (j, i) in s.zero2 && (j, i) in s.zero3 && (j, i) in s.mul
  {
    hide ValidDkg, MemberHonest, FragmentsHonest, Zero2Honest, Zero3Honest, MulsHonest, HasPolynomials, Pc, Commitment,
         FragmentsBy;
    forall j: PartyIndex | j <= Count(run)
      ensures j in s.pcs && j in s.bip2 && j in s.bip3
      ensures j != i ==> (j, i) in s.zero2 && (j, i) in s.zero3 && (j, i) in s.mul
    {
      assert j in s.members;
      assert MemberPosted(run, s, s.members[j], j);
    }
  }

  lemma ReadyForFragments(run: DkgRun, s: System, i: PartyIndex)
    requires ValidDkg(run) && Invariant(run, s) && i <= Count(run)
    requires forall j :: j in s.members ==> !s.members[j].Idle?
    ensures forall j: PartyIndex :: j <= Count(run) ==> (j, i) in s.fragments
  {
    hide ValidDkg, MemberHonest, SentHonest, PostedBy;
    forall j: PartyIndex | j <= Count(run) ensures (j, i) in s.fragments {
      assert j in s.members;
      assert MemberPosted(run, s, s.members[j], j);
    }
  }

  /** As long as some party is not done, some party can take a step. */
  lemma NoDeadlock(run: DkgRun, s: System, i: PartyIndex) returns (s': System)
    requires ValidDkg(run) && HasPolynomials(run) && Invariant(run, s) && i <= Count(run) && i in s.members && !s.members[i].Finished?
    ensures Next(run, s, s')
  {
    hide ValidDkg, Next, SentHonest, MemberPosted, HasPolynomials, State3, State4, FinalParty, FinalPackage, AllPresent;
    assert forall j :: j in s.members ==> !s.members[j].Aborted? by {
      forall j | j in s.members ensures !s.members[j].Aborted? {
        assert MemberHonest(run, s.members[j], j);
      }
    }
    if j :| j in s.members && s.members[j].Idle? {
      s' := CanFirst(run, s, j);
    } else if j :| j in s.members && s.members[j].Ready2? {
      ReadyForFragments(run, s, j);
      s' := CanSecond(run, s, j);
    } else if j :| j in s.members && s.members[j].Ready3? {
      s' := CanThird(run, s, j);
    } else {
      ReadyToFinish(run, s, i);
      s' := CanFourth(run, s, i);
    }
  }
}
