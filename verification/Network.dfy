/** Messages in transit between parties: one channel for every ordered pair. */
module Network {
  import opened Sequences
  import opened Protocols

  /** (sender, receiver) */
  type Channel = (PartyIndex, PartyIndex)

  /** Every message is put on the channel that its addresses name. */
  function Post<T>(sent: map<Channel, Transmit<T>>, messages: seq<Transmit<T>>): map<Channel, Transmit<T>>
    decreases |messages|
  {
    if messages == [] then sent
    else Post(sent[(messages[0].parties.sender, messages[0].parties.receiver) := messages[0]], messages[1..])
  }

  ghost predicate Arrived<T>(sent: map<Channel, T>, i: PartyIndex, order: seq<PartyIndex>) {
    forall k :: 0 <= k < |order| ==> (order[k], i) in sent
  }

  /** What i receives when the senders' messages arrive in the given order. */
  function Inbox<T>(sent: map<Channel, T>, i: PartyIndex, order: seq<PartyIndex>): (m: seq<T>)
    requires Arrived(sent, i, order)
    ensures |m| == |order|
  {
    seq(|order|, k requires 0 <= k < |order| => sent[(order[k], i)])
  }

  lemma {:induction false} PostMeaning<T>(sent: map<Channel, Transmit<T>>, messages: seq<Transmit<T>>)
    decreases |messages|
    ensures forall c :: c in sent ==> c in Post(sent, messages)
    ensures forall m :: m in messages ==> (m.parties.sender, m.parties.receiver) in Post(sent, messages)
    ensures forall c :: c in Post(sent, messages) ==>
      || (c in sent && Post(sent, messages)[c] == sent[c])
      || (Post(sent, messages)[c] in messages && c == (Post(sent, messages)[c].parties.sender, Post(sent, messages)[c].parties.receiver))
  {
    if messages != [] {
      var m := messages[0];
      PostMeaning(sent[(m.parties.sender, m.parties.receiver) := m], messages[1..]);
      assert messages == [m] + messages[1..];
    }
  }

  /** Messages that i addresses to the members in order. */
  ghost predicate AddressedFrom<T>(i: PartyIndex, order: seq<PartyIndex>, messages: seq<Transmit<T>>) {
    |messages| == |order| && forall k :: 0 <= k < |order| ==> messages[k].parties == PartiesMessage(i, order[k])
  }

  /** After posting, the messages of i are on the channels to the parties in order, and nothing else is new. */
  lemma PostFrom<T>(sent: map<Channel, Transmit<T>>, i: PartyIndex, order: seq<PartyIndex>, messages: seq<Transmit<T>>)
    requires AddressedFrom(i, order, messages)
    ensures forall j: PartyIndex :: j in order ==> (i, j) in Post(sent, messages)
    ensures forall c :: c in sent ==> c in Post(sent, messages)
    ensures forall c :: c in Post(sent, messages) ==>
      || (c in sent && Post(sent, messages)[c] == sent[c])
      || exists k :: 0 <= k < |order| && c == (i, order[k]) && Post(sent, messages)[c] == messages[k]
  {
    PostMeaning(sent, messages);
    forall j: PartyIndex | j in order ensures (i, j) in Post(sent, messages) {
      var k :| 0 <= k < |order| && order[k] == j;
      assert messages[k] in messages;
    }
  }

  // Counting steps

  /** The sum of the stages that the listed members have reached. */
  function Total(stages: map<PartyIndex, nat>, group: seq<PartyIndex>): nat {
    if group == [] then 0
    else (if group[0] in stages then stages[group[0]] else 0) + Total(stages, group[1..])
  }

  lemma {:induction false} TotalStep(stages: map<PartyIndex, nat>, stages': map<PartyIndex, nat>, group: seq<PartyIndex>,
                                     i: PartyIndex)
    requires NoRepeats(group) && i in stages && i in stages' && stages'[i] >= stages[i]
    requires stages.Keys == stages'.Keys && forall j :: j in stages && j != i ==> stages'[j] == stages[j]
    ensures Total(stages', group) == Total(stages, group) + if i in group then stages'[i] - stages[i] else 0
  {
    if group != [] {
      TotalStep(stages, stages', group[1..], i);
      assert group == [group[0]] + group[1..];
      NoRepeatsCons(group[0], group[1..]);
    }
  }

  lemma {:induction false} TotalBound(stages: map<PartyIndex, nat>, group: seq<PartyIndex>, last: nat)
    requires forall i :: i in stages ==> stages[i] <= last
    ensures Total(stages, group) <= last * |group|
    ensures Total(stages, group) == last * |group| && last > 0 ==> forall i :: i in group ==> i in stages && stages[i] == last
  {
    if group != [] {
      TotalBound(stages, group[1..], last);
      assert group == [group[0]] + group[1..];
      assert last * |group| == last + last * |group[1..]|;
    }
  }

  lemma {:induction false} TotalZero(stages: map<PartyIndex, nat>, group: seq<PartyIndex>)
    requires forall i :: i in group ==> i in stages && stages[i] == 0
    ensures Total(stages, group) == 0
  {
    if group != [] {
      TotalZero(stages, group[1..]);
    }
  }
}
