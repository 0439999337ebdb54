/** All interleavings of the sessions of a group that signs, with every message delivered to the party it
    is addressed to, in any order. */
module SigningInterleavings {
  import opened Outcomes
  import opened PrimeField
  import opened Hashes
  import opened Curve
  import opened Sequences
  import opened Protocols
  import opened ZeroShares
  import opened PartyStates
  import opened Ecdsa
  import opened Signing
  import opened SigningAlgebra
  import opened SigningRuns
  import opened SigningOutcome
  import opened SignSessions
  import opened Network

  /** Where a member stands: before its first phase, after phase 1, 2 or 3, finished, or aborted. */
  datatype Member =
    | Idle
    | Ready2(session: SessionState)
    | Ready3(session: SessionState)
    | Ready4(session: SessionState)
    | Finished(signature: EcdsaSignature)
    | Aborted(abort: Abort)

  /** The members and what has been sent: pairwise messages by (sender, receiver), broadcasts by sender. */
  datatype System = System(
    members: map<PartyIndex, Member>, sent1: map<Channel, TransmitPhase1to2>, sent2: map<Channel, TransmitPhase2to3>,
    sent3: map<PartyIndex, Broadcast3to4>)

  ghost predicate AllBroadcast(sent: map<PartyIndex, Broadcast3to4>, order: seq<PartyIndex>) {
    forall k :: 0 <= k < |order| ==> order[k] in sent
  }

  function BroadcastInbox(sent: map<PartyIndex, Broadcast3to4>, order: seq<PartyIndex>): (m: seq<Broadcast3to4>)
    requires AllBroadcast(sent, order)
    ensures |m| == |order|
  {
    seq(|order|, k requires 0 <= k < |order| => sent[order[k]])
  }

  ghost function Initial(run: SigningRun): System {
    System(map i | i in run.group :: Idle, map[], map[], map[])
  }

  ghost predicate Start(run: SigningRun, s: System, s': System, i: PartyIndex)
    requires i in run.ps && i in s.members
  {
    && s.members[i].Idle?
    && var r := Started(run.ps[i], DataOf(run, i), run.draws(i));
       if r.Err? then s' == s.(members := s.members[i := Aborted(r.error)])
       else s' == s.(members := s.members[i := Ready2(r.value.0)], sent1 := Post(s.sent1, r.value.1))
  }

  ghost predicate Second(run: SigningRun, s: System, s': System, i: PartyIndex, order: seq<PartyIndex>)
    requires i in run.ps && i in s.members
  {
    && s.members[i].Ready2? && ListsOthers(run, i, order) && Arrived(s.sent1, i, order)
    && var (state, r) := After2(run.ps[i], DataOf(run, i), run.draws(i), s.members[i].session, Inbox(s.sent1, i, order));
       if r.Err? then s' == s.(members := s.members[i := Aborted(r.error)])
       else s' == s.(members := s.members[i := Ready3(state)], sent2 := Post(s.sent2, r.value))
  }

  ghost predicate Third(run: SigningRun, s: System, s': System, i: PartyIndex, order: seq<PartyIndex>)
    requires i in run.ps && i in s.members
  {
    && s.members[i].Ready3? && ListsOthers(run, i, order) && Arrived(s.sent2, i, order)
    && var (state, r) := After3(run.ps[i], DataOf(run, i), s.members[i].session, Inbox(s.sent2, i, order));
       if r.Err? then s' == s.(members := s.members[i := Aborted(r.error)])
       else s' == s.(members := s.members[i := Ready4(state)], sent3 := s.sent3[i := r.value])
  }

  /** order lists every member of the group once, the receiver included. */
  ghost predicate ListsAll(run: SigningRun, order: seq<PartyIndex>) {
    NoRepeats(order) && forall j :: j in order <==> j in run.group
  }

  ghost predicate Fourth(run: SigningRun, s: System, s': System, i: PartyIndex, order: seq<PartyIndex>, normalize: bool)
    requires i in run.ps && i in s.members
  {
    && s.members[i].Ready4? && ListsAll(run, order) && AllBroadcast(s.sent3, order)
    && var (state, r) := After4(run.ps[i], DataOf(run, i), s.members[i].session, BroadcastInbox(s.sent3, order), normalize);
       s' == s.(members := s.members[i := if r.Err? then Aborted(r.error) else Finished(r.value)])
  }

  /** Member i takes its next step. Whether it asks for a low s is its own choice. */
  ghost predicate Takes(run: SigningRun, normalize: PartyIndex -> bool, s: System, s': System, i: PartyIndex, order: seq<PartyIndex>) {
    && i in run.group && i in run.ps && i in s.members
    && (Start(run, s, s', i) || Second(run, s, s', i, order) || Third(run, s, s', i, order)
        || Fourth(run, s, s', i, order, normalize(i)))
  }

  ghost predicate Next(run: SigningRun, normalize: PartyIndex -> bool, s: System, s': System) {
    exists i, order :: Takes(run, normalize, s, s', i, order)
  }

  ghost predicate IsTrace(run: SigningRun, normalize: PartyIndex -> bool, trace: seq<System>) {
    && |trace| > 0 && trace[0] == Initial(run)
    && forall k :: 0 <= k < |trace| - 1 ==> Next(run, normalize, trace[k], trace[k + 1])
  }

  // What holds in every reachable state

  ghost predicate Sent1Honest(run: SigningRun, sent: map<Channel, TransmitPhase1to2>)
    requires ValidRun(run)
  {
    forall c :: c in sent ==> Pair(run, c.0, c.1) && sent[c] == Message1(run, c.0, c.1)
  }

  ghost predicate Sent2Honest(run: SigningRun, sent: map<Channel, TransmitPhase2to3>)
    requires ValidRun(run)
  {
    forall c :: c in sent ==> Pair(run, c.0, c.1) && sent[c] == Message2(run, c.0, c.1)
  }

  ghost predicate Sent3Honest(run: SigningRun, sent: map<PartyIndex, Broadcast3to4>)
    requires ValidRun(run)
  {
    forall i :: i in sent ==> i in run.group && PassesPhase3(run, i) && sent[i] == BroadcastOf(run, PositionOf(run, i))
  }

  /** The session of a member that has finished phase 1. */
  ghost predicate Session2(run: SigningRun, i: PartyIndex, state: SessionState)
    requires ValidRun(run) && i in run.group
  {
    && AllPairs(run, i, run.orders(i)) && i in run.ps
    && state == HonestSession2(run, i)
  }

  ghost predicate Session3(run: SigningRun, i: PartyIndex, state: SessionState)
    requires ValidRun(run) && i in run.group
  {
    && AllPairs(run, i, run.orders(i)) && i in run.ps
    && state == HonestSession3(run, i)
  }

  /** When a run produces signatures: no member draws the instance key zero, and what phase 4 needs. */
  ghost predicate Signable(run: SigningRun) {
    ValidRun(run) && (forall i :: i in run.group ==> InstanceKey(run, i) != 0) && PassesPhase4(run)
  }

  /** The result: the single signer's s, negated just when a low s was asked for and it is high, the common r, and a recovery
      id that finds the public key. */
  ghost predicate Correct(run: SigningRun, normalize: bool, i: PartyIndex, signature: EcdsaSignature)
    requires i in run.ps
  {
    && 0 < XCoord(run) < Q && TotalKey(run) != 0
    && var s0 := SingleSigner(TotalKey(run), SecretKey(run), ReduceHash(run.message_hash), XCoord(run));
    && signature.r == XCoord(run) && signature.s == (if normalize && 2 * s0 > Q then Neg(s0) else s0)
    && RecoversKey(signature.r, signature.s, signature.recovery_id, ReduceHash(run.message_hash), run.ps[i].pk)
  }

  ghost predicate MemberHonest(run: SigningRun, normalize: PartyIndex -> bool, s: System, i: PartyIndex)
    requires ValidRun(run) && i in run.group && i in s.members
  {
    && i in run.ps
    && match s.members[i]
       case Idle => true
       case Ready2(state) => Session2(run, i, state)
       case Ready3(state) => Session3(run, i, state)
       case Ready4(state) => PassesPhase3(run, i) && state == SessionState(None, None, Some(XCoord(run)))
       case Finished(signature) => Signable(run) && Correct(run, normalize(i), i, signature)
       case Aborted(_) => !Signable(run)
  }

  /** Everything a member that is past a phase has to send in it has been sent. */
  ghost predicate MemberPosted(run: SigningRun, s: System, i: PartyIndex)
    requires i in s.members
  {
    && (!s.members[i].Idle? ==> PostedBy(run, s.sent1, i))
    && (s.members[i].Ready3? || s.members[i].Ready4? || s.members[i].Finished? ==> PostedBy(run, s.sent2, i))
    && (s.members[i].Ready4? || s.members[i].Finished? ==> i in s.sent3)
  }

  ghost predicate Invariant(run: SigningRun, normalize: PartyIndex -> bool, s: System)
    requires ValidRun(run)
  {
    && (forall i :: i in s.members <==> i in run.group)
    && (forall i :: i in s.members ==> MemberHonest(run, normalize, s, i))
    && (forall i :: i in s.members ==> MemberPosted(run, s, i))
    && Sent1Honest(run, s.sent1) && Sent2Honest(run, s.sent2) && Sent3Honest(run, s.sent3)
  }

  // Posting

  /** All messages from i to the others are on their channels. */
  ghost predicate PostedBy<T>(run: SigningRun, sent: map<Channel, T>, i: PartyIndex) {
    forall j: PartyIndex :: Pair(run, i, j) ==> (i, j) in sent
  }

  lemma PostAddressed<T>(run: SigningRun, sent: map<Channel, Transmit<T>>, i: PartyIndex, order: seq<PartyIndex>,
                         messages: seq<Transmit<T>>)
    requires AddressedFrom(i, order, messages) && ListsOthers(run, i, order)
    ensures PostedBy(run, Post(sent, messages), i)
    ensures forall c :: c in Post(sent, messages) ==>
      || (c in sent && Post(sent, messages)[c] == sent[c])
      || exists k :: 0 <= k < |order| && c == (i, order[k]) && Post(sent, messages)[c] == messages[k]
  {
    PostFrom(sent, i, order, messages);
  }

  lemma Post1(run: SigningRun, sent: map<Channel, TransmitPhase1to2>, i: PartyIndex)
    requires ValidRun(run) && i in run.group && Sent1Honest(run, sent) && AllPairs(run, i, run.orders(i))
    ensures var posted := Post(sent, Messages1(run, i, run.orders(i)));
      Sent1Honest(run, posted) && PostedBy(run, posted, i) && forall c :: c in sent ==> c in posted
  {
    hide ConsistentParties, Message1, PostedBy, NoRepeats;
    var order := run.orders(i);
    var messages := Messages1(run, i, order);
    PostMeaning(sent, messages);
    forall k | 0 <= k < |messages| ensures messages[k].parties == PartiesMessage(i, order[k]) {
      SenderOfMessage1(run, i, order[k]);
    }
    PostAddressed(run, sent, i, order, messages);
  }

  lemma Post2(run: SigningRun, sent: map<Channel, TransmitPhase2to3>, i: PartyIndex, order: seq<PartyIndex>)
    requires ValidRun(run) && i in run.group && Sent2Honest(run, sent) && AllPairs(run, i, order) && ListsOthers(run, i, order)
    ensures var posted := Post(sent, Messages2(run, i, order));
      Sent2Honest(run, posted) && PostedBy(run, posted, i) && forall c :: c in sent ==> c in posted
  {
    hide ConsistentParties, Message2, PostedBy, NoRepeats;
    var messages := Messages2(run, i, order);
    PostMeaning(sent, messages);
    forall k | 0 <= k < |messages| ensures messages[k].parties == PartiesMessage(i, order[k]) {
      assert i in run.ps;
      MessageFields(run, i, order[k]);
    }
    PostAddressed(run, sent, i, order, messages);
  }

  // Inboxes

  lemma InboxIs1(run: SigningRun, s: System, i: PartyIndex, order: seq<PartyIndex>)
    requires ValidRun(run) && Sent1Honest(run, s.sent1) && i in run.group && ListsOthers(run, i, order) && Arrived(s.sent1, i, order)
    ensures AllPairs(run, i, order) && Inbox(s.sent1, i, order) == Inbox1(run, i, order)
  {
    hide ConsistentParties, Message1;
    OrderPairs(run, i, order);
  }

  lemma InboxIs2(run: SigningRun, s: System, i: PartyIndex, order: seq<PartyIndex>)
    requires ValidRun(run) && Sent2Honest(run, s.sent2) && i in run.group && ListsOthers(run, i, order) && Arrived(s.sent2, i, order)
    ensures AllPairs(run, i, order) && Inbox(s.sent2, i, order) == Inbox2(run, i, order)
  {
    hide ConsistentParties, Message2;
    OrderPairs(run, i, order);
  }

  ghost function BroadcastBy(run: SigningRun): PartyIndex -> Broadcast3to4
    requires ValidRun(run)
  {
    i => if i in run.group then BroadcastOf(run, PositionOf(run, i)) else Broadcast3to4(0, 0)
  }

  lemma InboxIs3(run: SigningRun, s: System, order: seq<PartyIndex>)
    requires ValidRun(run) && Sent3Honest(run, s.sent3) && ListsAll(run, order) && AllBroadcast(s.sent3, order)
    ensures multiset(BroadcastInbox(s.sent3, order)) == multiset(Broadcasts(run))
  {
    hide ConsistentParties, BroadcastOf;
    var f := BroadcastBy(run);
    SameElements(order, run.group);
    MappedPermuted(f, order, run.group);
    assert BroadcastInbox(s.sent3, order) == Mapped(f, order);
    forall a | 0 <= a < |run.group| ensures Mapped(f, run.group)[a] == Broadcasts(run)[a] {
      assert run.group[a] in run.group;
      assert PositionOf(run, run.group[a]) == a;
    }
    assert Broadcasts(run) == Mapped(f, run.group);
  }

  // The steps

  /** The state that the invariant prescribes after phase 1. */
  ghost function HonestSession2(run: SigningRun, i: PartyIndex): SessionState
    requires ValidRun(run) && i in run.ps && AllPairs(run, i, run.orders(i))
  {
    SessionState(Some((Unique1(run, i), Kept1For(run, i, run.orders(i)))), None, None)
  }

  ghost function HonestSession3(run: SigningRun, i: PartyIndex): SessionState
    requires ValidRun(run) && i in run.ps && AllPairs(run, i, run.orders(i))
  {
    SessionState(None, Some((Unique2(run, i), Kept2For(run, i, run.orders(i)))), None)
  }

  lemma StartResult(run: SigningRun, i: PartyIndex)
    requires ValidRun(run) && i in run.group
    ensures i in run.ps && AllPairs(run, i, run.orders(i))
    ensures Started(run.ps[i], DataOf(run, i), run.draws(i)) == Ok((HonestSession2(run, i), Messages1(run, i, run.orders(i))))
  {
    hide ValidRun, Phase1Outcome, Messages1, Kept1For, Unique1;
    Phase1Honest(run, i);
  }

  lemma SecondResult(run: SigningRun, i: PartyIndex, order: seq<PartyIndex>)
    requires ValidRun(run) && i in run.group && ListsOthers(run, i, order)
    ensures i in run.ps && AllPairs(run, i, order) && AllPairs(run, i, run.orders(i))
    ensures After2(run.ps[i], DataOf(run, i), run.draws(i), HonestSession2(run, i), Inbox1(run, i, order))
            == (HonestSession3(run, i), Ok(Messages2(run, i, order)))
  {
    hide ValidRun, Phase2Outcome, Messages2, Kept1For, Kept2For, Unique1, Unique2, Inbox1;
    Phase2Honest(run, i, order);
    SameKept2(run, i, order);
  }

  lemma ThirdResult(run: SigningRun, i: PartyIndex, order: seq<PartyIndex>)
    requires ValidRun(run) && i in run.group && ListsOthers(run, i, order)
    ensures i in run.ps && AllPairs(run, i, order) && AllPairs(run, i, run.orders(i))
    ensures var (state, r) := After3(run.ps[i], DataOf(run, i), HonestSession3(run, i), Inbox2(run, i, order));
      if PassesPhase3(run, i) then
        state == SessionState(None, None, Some(XCoord(run))) && r == Ok(BroadcastOf(run, PositionOf(run, i)))
      else
        r.Err? && !Signable(run)
  {
    hide ConsistentParties, Phase3Outcome, Kept2For, Unique2, Inbox2, BroadcastOf, XCoord;
    Phase3Honest(run, i, run.orders(i), order);
  }

  lemma FourthResult(run: SigningRun, normalize: bool, i: PartyIndex, received: seq<Broadcast3to4>)
    requires ValidRun(run) && i in run.group && multiset(received) == multiset(Broadcasts(run))
    ensures i in run.ps
    ensures var r := After4(run.ps[i], DataOf(run, i), SessionState(None, None, Some(XCoord(run))), received, normalize).1;
      && (r.Ok? <==> PassesPhase4(run)) && (r.Ok? ==> Correct(run, normalize, i, r.value))
  {
    hide ValidRun, Phase4Outcome, RecoversKey, UpToSign, SingleSigner, IsCandidate, Broadcasts;
    PartyFacts(run, i);
    Phase4Honest(run, i, received, normalize);
  }

  lemma PassedIfSent(run: SigningRun, s: System, i: PartyIndex)
    requires ValidRun(run) && Sent3Honest(run, s.sent3) && i in s.sent3
    ensures PassesPhase3(run, i)
  {
    hide ValidRun, BroadcastOf;
  }

  /** If all members have passed phase 3, no instance key is zero: every member is checked by some other one. */
  lemma AllBroadcastNonZero(run: SigningRun, s: System, order: seq<PartyIndex>)
    requires ValidRun(run) && Sent3Honest(run, s.sent3) && ListsAll(run, order) && AllBroadcast(s.sent3, order)
    ensures forall j :: j in run.group ==> InstanceKey(run, j) != 0
  {
    hide ConsistentParties, BroadcastOf, Sent3Honest;
    forall j | j in run.group ensures InstanceKey(run, j) != 0 {
      var i := run.group[if run.group[0] == j then 1 else 0];
      assert i in run.group && i in order && i != j;
      PassedIfSent(run, s, i);
    }
  }

  lemma StartKeeps(run: SigningRun, normalize: PartyIndex -> bool, s: System, s': System, i: PartyIndex)
    requires ValidRun(run) && Invariant(run, normalize, s) && i in run.group && i in run.ps && i in s.members
    requires Start(run, s, s', i)
    ensures Invariant(run, normalize, s')
  {
    hide ValidRun, Signable, Started, Messages1, Correct, Sent1Honest, Sent2Honest, Sent3Honest, PostedBy, Pair,
         HonestSession3, Kept1For, Unique1;
    assert MemberPosted(run, s, i);
    StartResult(run, i);
    Post1(run, s.sent1, i);
    Others(run, normalize, s, s', i);
  }

  /** A step that changes one member, adds messages and keeps that member honest keeps the rest of the invariant. */
  lemma Others(run: SigningRun, normalize: PartyIndex -> bool, s: System, s': System, i: PartyIndex)
    requires ValidRun(run) && Invariant(run, normalize, s) && i in s.members
    requires s'.members.Keys == s.members.Keys && forall j :: j in s.members && j != i ==> s'.members[j] == s.members[j]
    requires forall c :: c in s.sent1 ==> c in s'.sent1
    requires forall c :: c in s.sent2 ==> c in s'.sent2
    requires forall c :: c in s.sent3 ==> c in s'.sent3
    requires MemberHonest(run, normalize, s', i) && MemberPosted(run, s', i)
    requires Sent1Honest(run, s'.sent1) && Sent2Honest(run, s'.sent2) && Sent3Honest(run, s'.sent3)
    ensures Invariant(run, normalize, s')
  {
    hide ValidRun, Signable, Sent1Honest, Sent2Honest, Sent3Honest, Session2, Session3, Correct, Pair;
    forall j | j in s'.members ensures MemberHonest(run, normalize, s', j) && MemberPosted(run, s', j) {
      assert MemberHonest(run, normalize, s, j) && MemberPosted(run, s, j);
    }
  }

  lemma SecondKeeps(run: SigningRun, normalize: PartyIndex -> bool, s: System, s': System, i: PartyIndex, order: seq<PartyIndex>)
    requires ValidRun(run) && Invariant(run, normalize, s) && i in run.group && i in run.ps && i in s.members
    requires Second(run, s, s', i, order)
    ensures Invariant(run, normalize, s')
  {
    hide ValidRun, Signable, After2, Messages2, Correct, Sent1Honest, Sent2Honest, Sent3Honest, PostedBy, Pair, Inbox,
         Inbox1, Kept1For, Kept2For, Unique1, Unique2, ListsOthers, Arrived;
    assert MemberHonest(run, normalize, s, i) && MemberPosted(run, s, i);
    InboxIs1(run, s, i, order);
    SecondResult(run, i, order);
    Post2(run, s.sent2, i, order);
    Others(run, normalize, s, s', i);
  }

  lemma SameKept2(run: SigningRun, i: PartyIndex, order: seq<PartyIndex>)
    requires ValidRun(run) && i in run.group && ListsOthers(run, i, order)
    ensures AllPairs(run, i, order) && AllPairs(run, i, run.orders(i))
    ensures Kept2For(run, i, order) == Kept2For(run, i, run.orders(i))
  {
    hide ConsistentParties, Keep2;
    OrderPairs(run, i, order);
    OrderPairs(run, i, run.orders(i));
  }

  lemma ThirdKeeps(run: SigningRun, normalize: PartyIndex -> bool, s: System, s': System, i: PartyIndex, order: seq<PartyIndex>)
    requires ValidRun(run) && Invariant(run, normalize, s) && i in run.group && i in run.ps && i in s.members
    requires Third(run, s, s', i, order)
    ensures Invariant(run, normalize, s')
  {
    hide ValidRun, Signable, PassesPhase3, After3, Correct, Sent1Honest, Sent2Honest, PostedBy, Pair, Inbox, Inbox2,
         Kept2For, Unique2, ListsOthers, Arrived, BroadcastOf, XCoord, Session2;
    assert MemberHonest(run, normalize, s, i) && MemberPosted(run, s, i);
    InboxIs2(run, s, i, order);
    ThirdResult(run, i, order);
    Others(run, normalize, s, s', i);
  }

  lemma FourthKeeps(run: SigningRun, normalize: PartyIndex -> bool, s: System, s': System, i: PartyIndex, order: seq<PartyIndex>)
    requires ValidRun(run) && Invariant(run, normalize, s) && i in run.group && i in run.ps && i in s.members
    requires Fourth(run, s, s', i, order, normalize(i))
    ensures Invariant(run, normalize, s')
  {
    hide ValidRun, PassesPhase3, PassesPhase4, After4, Correct, Sent1Honest, Sent2Honest, Sent3Honest, PostedBy, Pair,
         BroadcastInbox, Broadcasts, ListsAll, AllBroadcast, Session2, Session3, XCoord;
    assert MemberHonest(run, normalize, s, i) && MemberPosted(run, s, i);
    InboxIs3(run, s, order);
    FourthResult(run, normalize(i), i, BroadcastInbox(s.sent3, order));
    AllBroadcastNonZero(run, s, order);
    Others(run, normalize, s, s', i);
  }

  lemma InitialHolds(run: SigningRun, normalize: PartyIndex -> bool)
    requires ValidRun(run)
    ensures Invariant(run, normalize, Initial(run))
  {
    hide ConsistentParties;
  }

  lemma {:induction false} AlwaysInvariant(run: SigningRun, normalize: PartyIndex -> bool, trace: seq<System>, k: nat)
    requires ValidRun(run) && IsTrace(run, normalize, trace) && k < |trace|
    ensures Invariant(run, normalize, trace[k])
  {
    hide ValidRun, Invariant, Start, Second, Third, Fourth, Initial;
    if k == 0 {
      InitialHolds(run, normalize);
    } else {
      AlwaysInvariant(run, normalize, trace, k - 1);
      var s, s' := trace[k - 1], trace[(k - 1) + 1];
      assert Next(run, normalize, s, s');
      var i, order :| Takes(run, normalize, s, s', i, order);
      if Start(run, s, s', i) {
        StartKeeps(run, normalize, s, s', i);
      } else if Second(run, s, s', i, order) {
        SecondKeeps(run, normalize, s, s', i, order);
      } else if Third(run, s, s', i, order) {
        ThirdKeeps(run, normalize, s, s', i, order);
      } else {
        FourthKeeps(run, normalize, s, s', i, order);
      }
    }
  }

  /** Only an unsignable run aborts; a signature exists only in a signable run, and is the correct one. */
  ghost predicate RightOutcome(run: SigningRun, normalize: bool, i: PartyIndex, member: Member)
    requires i in run.ps
  {
    && (member.Aborted? ==> !Signable(run))
    && (member.Finished? ==> Signable(run) && Correct(run, normalize, i, member.signature))
  }

  /** In every interleaving, a member aborts or bans another only if the run is not signable. A member obtains a signature
      only if the run is signable, and it is the signature of a single signer up to sign, with the same r for all. */
  lemma EveryInterleavingSigns(run: SigningRun, normalize: PartyIndex -> bool, trace: seq<System>, k: nat, i: PartyIndex)
    requires ValidRun(run) && IsTrace(run, normalize, trace) && k < |trace| && i in run.group
    ensures i in run.ps && i in trace[k].members
    ensures RightOutcome(run, normalize(i), i, trace[k].members[i])
  {
    hide ValidRun, Signable, Sent1Honest, Sent2Honest, Sent3Honest, MemberPosted, Correct, Session2, Session3;
    AlwaysInvariant(run, normalize, trace, k);
    assert MemberHonest(run, normalize, trace[k], i);
  }

  // Every run can be continued until all members have their signature

  function Stage(m: Member): nat {
    match m
    case Idle => 0
    case Ready2(_) => 1
    case Ready3(_) => 2
    case Ready4(_) => 3
    case _ => 4
  }

  function Stages(s: System): map<PartyIndex, nat> {
    map i | i in s.members :: Stage(s.members[i])
  }

  /** The number of steps that the members have taken. */
  function Steps(run: SigningRun, s: System): nat {
    Total(Stages(s), run.group)
  }

  lemma TakesOne(run: SigningRun, normalize: PartyIndex -> bool, s: System, s': System, i: PartyIndex, order: seq<PartyIndex>)
    requires Takes(run, normalize, s, s', i, order)
    ensures i in s.members && i in s'.members
    ensures s'.members.Keys == s.members.Keys && forall j :: j in s.members && j != i ==> s'.members[j] == s.members[j]
    ensures Stage(s'.members[i]) >= Stage(s.members[i]) + 1
    ensures !s'.members[i].Aborted? ==> Stage(s'.members[i]) == Stage(s.members[i]) + 1
  {
    hide Started, After2, After3, After4, ListsOthers, ListsAll, Inbox, BroadcastInbox, Post;
  }

  lemma OnlyUnsignableAborts(run: SigningRun, normalize: PartyIndex -> bool, s: System, i: PartyIndex)
    requires ValidRun(run) && Invariant(run, normalize, s) && i in s.members
    ensures NoRepeats(run.group) && i in run.group && (s.members[i].Aborted? ==> !Signable(run))
  {
    hide ConsistentParties, Signable, MemberPosted, Correct, Session2, Session3, Sent1Honest, Sent2Honest, Sent3Honest;
    assert MemberHonest(run, normalize, s, i);
  }

  lemma NextAdvances(run: SigningRun, normalize: PartyIndex -> bool, s: System, s': System)
    requires ValidRun(run) && Invariant(run, normalize, s) && Invariant(run, normalize, s') && Next(run, normalize, s, s')
    ensures Steps(run, s') >= Steps(run, s) + 1
    ensures Signable(run) ==> Steps(run, s') == Steps(run, s) + 1
  {
    hide ValidRun, Signable, Invariant, Takes, Total;
    var i, order :| Takes(run, normalize, s, s', i, order);
    TakesOne(run, normalize, s, s', i, order);
    OnlyUnsignableAborts(run, normalize, s', i);
    TotalStep(Stages(s), Stages(s'), run.group, i);
  }

  /** After k steps of a run the members have taken k steps in total; one that aborts skips its remaining ones. */
  lemma {:induction false} StepsCounted(run: SigningRun, normalize: PartyIndex -> bool, trace: seq<System>, k: nat)
    requires ValidRun(run) && IsTrace(run, normalize, trace) && k < |trace|
    ensures Steps(run, trace[k]) >= k
    ensures Signable(run) ==> Steps(run, trace[k]) == k
  {
    hide ValidRun, Signable, Invariant, Next;
    if k == 0 {
      TotalZero(Stages(trace[0]), run.group);
    } else {
      StepsCounted(run, normalize, trace, k - 1);
      AlwaysInvariant(run, normalize, trace, k - 1);
      AlwaysInvariant(run, normalize, trace, k);
      assert Next(run, normalize, trace[k - 1], trace[(k - 1) + 1]);
      NextAdvances(run, normalize, trace[k - 1], trace[k]);
    }
  }

  ghost predicate AllFinished(run: SigningRun, s: System) {
    forall i :: i in run.group ==> i in s.members && s.members[i].Finished?
  }

  /** No run is longer than four steps per member, and a run of that length leaves every member with its signature if the
      run is signable. */
  lemma RunsEnd(run: SigningRun, normalize: PartyIndex -> bool, trace: seq<System>)
    requires ValidRun(run) && IsTrace(run, normalize, trace)
    ensures |trace| <= 4 * |run.group| + 1
    ensures Signable(run) && |trace| == 4 * |run.group| + 1 ==> AllFinished(run, trace[|trace| - 1])
  {
    hide ValidRun, Signable, Next, Sent1Honest, Sent2Honest, Sent3Honest, MemberPosted, Correct, Session2, Session3, Total;
    var k := |trace| - 1;
    StepsCounted(run, normalize, trace, k);
    TotalBound(Stages(trace[k]), run.group, 4);
    AlwaysInvariant(run, normalize, trace, k);
    forall i | i in run.group ensures i in trace[k].members && (trace[k].members[i].Aborted? ==> !Signable(run)) {
      assert MemberHonest(run, normalize, trace[k], i);
    }
  }

  lemma CanStart(run: SigningRun, normalize: PartyIndex -> bool, s: System, i: PartyIndex) returns (s': System)
    requires ValidRun(run) && i in run.group && i in s.members && s.members[i].Idle?
    ensures Next(run, normalize, s, s')
  {
    hide ConsistentParties, Started, After2, After3, After4;
    var r := Started(run.ps[i], DataOf(run, i), run.draws(i));
    s' := if r.Err? then s.(members := s.members[i := Aborted(r.error)])
          else s.(members := s.members[i := Ready2(r.value.0)], sent1 := Post(s.sent1, r.value.1));
    assert Takes(run, normalize, s, s', i, []);
  }

  lemma CanSecond(run: SigningRun, normalize: PartyIndex -> bool, s: System, i: PartyIndex) returns (s': System)
    requires ValidRun(run) && i in run.group && i in s.members && s.members[i].Ready2?
    requires forall j: PartyIndex :: Pair(run, j, i) ==> (j, i) in s.sent1
    ensures Next(run, normalize, s, s')
  {
    hide ConsistentParties, Started, After2, After3, After4;
    var order := run.orders(i);
    assert Arrived(s.sent1, i, order) by {
      forall k | 0 <= k < |order| ensures (order[k], i) in s.sent1 {
        assert order[k] in order;
        assert Pair(run, order[k], i);
      }
    }
    var (state, r) := After2(run.ps[i], DataOf(run, i), run.draws(i), s.members[i].session, Inbox(s.sent1, i, order));
    s' := if r.Err? then s.(members := s.members[i := Aborted(r.error)])
          else s.(members := s.members[i := Ready3(state)], sent2 := Post(s.sent2, r.value));
    assert Takes(run, normalize, s, s', i, order);
  }

  lemma CanThird(run: SigningRun, normalize: PartyIndex -> bool, s: System, i: PartyIndex) returns (s': System)
    requires ValidRun(run) && i in run.group && i in s.members && s.members[i].Ready3?
    requires forall j: PartyIndex :: Pair(run, j, i) ==> (j, i) in s.sent2
    ensures Next(run, normalize, s, s')
  {
    hide ConsistentParties, Started, After2, After3, After4;
    var order := run.orders(i);
    assert Arrived(s.sent2, i, order) by {
      forall k | 0 <= k < |order| ensures (order[k], i) in s.sent2 {
        assert order[k] in order;
        assert Pair(run, order[k], i);
      }
    }
    var (state, r) := After3(run.ps[i], DataOf(run, i), s.members[i].session, Inbox(s.sent2, i, order));
    s' := if r.Err? then s.(members := s.members[i := Aborted(r.error)])
          else s.(members := s.members[i := Ready4(state)], sent3 := s.sent3[i := r.value]);
    assert Takes(run, normalize, s, s', i, order);
  }

  lemma CanFourth(run: SigningRun, normalize: PartyIndex -> bool, s: System, i: PartyIndex) returns (s': System)
    requires ValidRun(run) && i in run.group && i in s.members && s.members[i].Ready4?
    requires forall j :: j in run.group ==> j in s.sent3
    ensures Next(run, normalize, s, s')
  {
    hide ConsistentParties, Started, After2, After3, After4;
    var order := run.group;
    assert ListsAll(run, order) && AllBroadcast(s.sent3, order);
    var (state, r) := After4(run.ps[i], DataOf(run, i), s.members[i].session, BroadcastInbox(s.sent3, order), normalize(i));
    s' := s.(members := s.members[i := if r.Err? then Aborted(r.error) else Finished(r.value)]);
    assert Takes(run, normalize, s, s', i, order);
  }

  lemma Standing(run: SigningRun, normalize: PartyIndex -> bool, s: System, j: PartyIndex)
    requires Signable(run) && Invariant(run, normalize, s) && j in run.group
    ensures j in s.members && !s.members[j].Aborted? && MemberPosted(run, s, j)
  {
    hide ValidRun, PassesPhase3, PassesPhase4, Correct, Session2, Session3, Sent1Honest, Sent2Honest, Sent3Honest, MemberPosted;
    assert j in s.members;
    assert MemberHonest(run, normalize, s, j) && MemberPosted(run, s, j);
  }

  /** As long as some member of a signable run has no signature yet, some member can take a step. */
  lemma NoDeadlock(run: SigningRun, normalize: PartyIndex -> bool, s: System, i: PartyIndex) returns (s': System)
    requires Signable(run) && Invariant(run, normalize, s) && i in run.group && i in s.members && !s.members[i].Finished?
    ensures Next(run, normalize, s, s')
  {
    hide ValidRun, PassesPhase4, Next, Invariant;
    forall j | j in run.group ensures j in s.members && !s.members[j].Aborted? && MemberPosted(run, s, j) {
      Standing(run, normalize, s, j);
    }
    if j :| j in run.group && s.members[j].Idle? {
      s' := CanStart(run, normalize, s, j);
    } else if j :| j in run.group && s.members[j].Ready2? {
      s' := CanSecond(run, normalize, s, j);
    } else if j :| j in run.group && s.members[j].Ready3? {
      s' := CanThird(run, normalize, s, j);
    } else {
      s' := CanFourth(run, normalize, s, i);
    }
  }

  /** Every trace of a signable run can be continued until all members have their signature. */
  lemma {:induction false} ContinueToEnd(run: SigningRun, normalize: PartyIndex -> bool, trace: seq<System>)
    returns (full: seq<System>)
    requires Signable(run) && IsTrace(run, normalize, trace)
    ensures IsTrace(run, normalize, full) && AllFinished(run, full[|full| - 1]) && trace <= full
    decreases 4 * |run.group| + 1 - |trace|
  {
    hide Next, Invariant, ValidRun, PassesPhase4;
    var last := trace[|trace| - 1];
    RunsEnd(run, normalize, trace);
    AlwaysInvariant(run, normalize, trace, |trace| - 1);
    SameMembers(run, normalize, last);
    if i :| i in run.group && !last.members[i].Finished? {
      var s' := NoDeadlock(run, normalize, last, i);
      full := ContinueToEnd(run, normalize, trace + [s']);
    } else {
      full := trace;
    }
  }

  lemma SameMembers(run: SigningRun, normalize: PartyIndex -> bool, s: System)
    requires ValidRun(run) && Invariant(run, normalize, s)
    ensures forall i :: i in run.group ==> i in s.members
  {
    hide ValidRun, MemberHonest, MemberPosted, Sent1Honest, Sent2Honest, Sent3Honest;
  }

  /** When signing succeeds: some interleaving leaves all members with their signatures exactly if the run is signable. */
  lemma SigningDecided(run: SigningRun, normalize: PartyIndex -> bool)
    requires ValidRun(run)
    ensures Signable(run) <==>
      exists trace :: IsTrace(run, normalize, trace) && AllFinished(run, trace[|trace| - 1])
  {
    hide ValidRun, Signable, IsTrace, Correct;
    if Signable(run) {
      StartIsTrace(run, normalize);
      var full := ContinueToEnd(run, normalize, [Initial(run)]);
      TraceNonEmpty(run, normalize, full);
    }
    var i := SomeMember(run);
    forall trace | IsTrace(run, normalize, trace)
      ensures |trace| > 0 && (AllFinished(run, trace[|trace| - 1]) ==> Signable(run))
    {
      TraceNonEmpty(run, normalize, trace);
      EveryInterleavingSigns(run, normalize, trace, |trace| - 1, i);
    }
  }

  lemma StartIsTrace(run: SigningRun, normalize: PartyIndex -> bool)
    ensures IsTrace(run, normalize, [Initial(run)])
  {}

  lemma TraceNonEmpty(run: SigningRun, normalize: PartyIndex -> bool, trace: seq<System>)
    requires IsTrace(run, normalize, trace)
    ensures |trace| > 0
  {}

  lemma SomeMember(run: SigningRun) returns (i: PartyIndex)
    requires ValidRun(run)
    ensures i in run.group
  {
    hide ConsistentParties;
    i := run.group[0];
  }
}
