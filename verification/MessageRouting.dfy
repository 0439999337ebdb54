/** Sorting received messages by sender, as the last phases of key generation and refresh do. */
module MessageRouting {
  import opened Outcomes
  import opened Sequences
  import opened Protocols

  /** The complaint about one message, given the senders already seen. */
  function Misplaced(me: PartyIndex, expected: set<PartyIndex>, parties: PartiesMessage,
                     seen: set<PartyIndex>): Option<AbortReason> {
    if parties.receiver != me then Some(MisroutedMessage(me, parties.receiver))
    else if parties.sender !in expected then Some(UnexpectedSender(parties.sender))
    else if parties.sender in seen then Some(DuplicateSender(parties.sender))
    else None
  }

  /** The messages by sender, or the abort of the first one that is misplaced. */
  function Collected<T>(me: PartyIndex, expected: set<PartyIndex>, received: seq<Transmit<T>>, by_sender: map<PartyIndex, T>)
    : Result<map<PartyIndex, T>, Abort>
    decreases |received|
  {
    if received == [] then Ok(by_sender)
    else
      var fault := Misplaced(me, expected, received[0].parties, by_sender.Keys);
      if fault.Some? then Err(Recover(me, fault.value))
      else Collected(me, expected, received[1..], by_sender[received[0].parties.sender := received[0].body])
  }

  method CollectBySender<T>(me: PartyIndex, expected: set<PartyIndex>, received: seq<Transmit<T>>)
    returns (r: Result<map<PartyIndex, T>, Abort>)
    ensures r == Collected(me, expected, received, map[])
  {
    var by_sender: map<PartyIndex, T> := map[];
    for i := 0 to |received|
      invariant Collected(me, expected, received, map[]) == Collected(me, expected, received[i..], by_sender)
    {
      assert received[i..][0] == received[i] && received[i..][1..] == received[i + 1..];
      var message := received[i];
      if message.parties.receiver != me {
        return Err(Recover(me, MisroutedMessage(me, message.parties.receiver)));
      }
      if message.parties.sender !in expected {
        return Err(Recover(me, UnexpectedSender(message.parties.sender)));
      }
      if message.parties.sender in by_sender {
        return Err(Recover(me, DuplicateSender(message.parties.sender)));
      }
      by_sender := by_sender[message.parties.sender := message.body];
    }
    return Ok(by_sender);
  }

  /** All messages are addressed to me by expected senders, no sender repeats and none is in seen. */
  ghost predicate WellPlaced<T>(me: PartyIndex, expected: set<PartyIndex>, received: seq<Transmit<T>>, seen: set<PartyIndex>) {
    && (forall k :: 0 <= k < |received| ==>
         received[k].parties.receiver == me && received[k].parties.sender in expected && received[k].parties.sender !in seen)
    && (forall k, m :: 0 <= k < m < |received| ==> received[k].parties.sender != received[m].parties.sender)
  }

  ghost function Senders<T>(received: seq<Transmit<T>>): set<PartyIndex> {
    set k | 0 <= k < |received| :: received[k].parties.sender
  }

  /** Collecting succeeds just when all messages are well placed; then every message is found under its sender. */
  lemma {:induction false} CollectedMeaning<T>(me: PartyIndex, expected: set<PartyIndex>, received: seq<Transmit<T>>,
                                               by_sender: map<PartyIndex, T>)
    ensures Collected(me, expected, received, by_sender).Ok? <==> WellPlaced(me, expected, received, by_sender.Keys)
    ensures Collected(me, expected, received, by_sender).Ok? ==>
      && Collected(me, expected, received, by_sender).value.Keys == by_sender.Keys + Senders(received)
      && (forall k :: 0 <= k < |received| ==>
           Collected(me, expected, received, by_sender).value[received[k].parties.sender] == received[k].body)
      && (forall j :: j in by_sender ==> Collected(me, expected, received, by_sender).value[j] == by_sender[j])
    decreases |received|
  {
    if received != [] {
      var c := received[0].parties.sender;
      var next := by_sender[c := received[0].body];
      CollectedMeaning(me, expected, received[1..], next);
      assert Senders(received) == {c} + Senders(received[1..]) by {
        assert forall k :: 0 <= k < |received[1..]| ==> received[1..][k] == received[k + 1];
      }
      if Misplaced(me, expected, received[0].parties, by_sender.Keys).None? {
        WellPlacedTail(me, expected, received, by_sender.Keys);
        forall k | 1 <= k < |received| ensures received[k] == received[1..][k - 1] {}
      }
    }
  }

  lemma WellPlacedTail<T>(me: PartyIndex, expected: set<PartyIndex>, received: seq<Transmit<T>>, seen: set<PartyIndex>)
    requires received != [] && Misplaced(me, expected, received[0].parties, seen).None?
    ensures WellPlaced(me, expected, received, seen)
       <==> WellPlaced(me, expected, received[1..], seen + {received[0].parties.sender})
  {
    var rest := received[1..];
    var wider := seen + {received[0].parties.sender};
    if WellPlaced(me, expected, rest, wider) {
      forall k | 0 <= k < |received|
        ensures received[k].parties.receiver == me && received[k].parties.sender in expected &&
            received[k].parties.sender !in seen
      {
        if k > 0 {
          assert rest[k - 1] == received[k];
        }
      }
      forall k, m | 0 <= k < m < |received| ensures received[k].parties.sender != received[m].parties.sender {
        assert rest[m - 1] == received[m];
        if k > 0 {
          assert rest[k - 1] == received[k];
        }
      }
    }
    if WellPlaced(me, expected, received, seen) {
      forall k | 0 <= k < |rest|
        ensures rest[k].parties.receiver == me && rest[k].parties.sender in expected && rest[k].parties.sender !in wider
      {
        assert rest[k] == received[k + 1];
      }
      forall k, m | 0 <= k < m < |rest| ensures rest[k].parties.sender != rest[m].parties.sender {
        assert rest[k] == received[k + 1] && rest[m] == received[m + 1];
      }
    }
  }

  /** If as many messages were collected as are expected, no expected sender is missing. */
  lemma NobodyMissing<T>(me: PartyIndex, expected: set<PartyIndex>, received: seq<Transmit<T>>)
    requires Collected(me, expected, received, map[]).Ok?
    requires |Collected(me, expected, received, map[]).value| == |expected|
    ensures Collected(me, expected, received, map[]).value.Keys == expected
  {
    CollectedMeaning(me, expected, received, map[]);
    var keys := Collected(me, expected, received, map[]).value.Keys;
    assert keys <= expected;
    SameSize(keys, expected);
  }

  lemma SameSize(a: set<PartyIndex>, b: set<PartyIndex>)
    requires a <= b && |a| == |b|
    ensures a == b
  {
    assert b == a + (b - a);
    assert |b - a| == 0;
  }
}
