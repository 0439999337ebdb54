/** Re-randomizing the OT state of one pair of parties in place (Beaver's trick). */
module FastRefresh {
  import opened Bits
  import opened Hashes
  import opened OracleTags
  import opened PackedBits
  import opened Transpose
  import opened OTExtension
  import opened Multiplication
  import opened Protocols

  function Expand(tag: Bytes, sid: Bytes, i: nat, sender: PartyIndex, receiver: PartyIndex, seed: HashOutput): HashOutput {
    TaggedHash(tag, [sid, BigEndian(i, 2), BigEndian(sender, 2), BigEndian(receiver, 2), seed])
  }

  predicate IsOdd(b: Byte) {
    b % 2 == 1
  }

  /** The values r0', r1' and b' of one position. */
  datatype Mask3 = Mask3(r0: HashOutput, r1: HashOutput, b: bool)

  function MaskAt(sid: Bytes, i: nat, sender: PartyIndex, receiver: PartyIndex, seed: HashOutput): Mask3 {
    Mask3(Expand(TAG_REFRESH_FAST_R0, sid, i, sender, receiver, seed), Expand(TAG_REFRESH_FAST_R1, sid, i, sender, receiver, seed),
          IsOdd(Expand(TAG_REFRESH_FAST_B, sid, i, sender, receiver, seed)[0]))
  }

  // One position

  /** The sender's new seed, given its new bit. */
  function SenderSeed(old_seed: HashOutput, new_bit: bool, m: Mask3): HashOutput {
    XorBytes(old_seed, if new_bit then m.r1 else m.r0)
  }

  function ReceiverSeed0(seed0: HashOutput, seed1: HashOutput, m: Mask3): HashOutput {
    XorBytes(if m.b then seed1 else seed0, m.r0)
  }

  function ReceiverSeed1(seed0: HashOutput, seed1: HashOutput, m: Mask3): HashOutput {
    XorBytes(if m.b then seed0 else seed1, m.r1)
  }

  /** For any masks, the sender's new seed is the one of the receiver's new seeds that its new bit selects. */
  lemma TrickKeepsRelation(bit: bool, seed: HashOutput, seed0: HashOutput, seed1: HashOutput, m: Mask3)
    requires seed == if bit then seed1 else seed0
    ensures var new_bit := bit != m.b;
      SenderSeed(seed, new_bit, m) == if new_bit then ReceiverSeed1(seed0, seed1, m) else ReceiverSeed0(seed0, seed1, m)
  {
    hide XorBytes;
  }

  // All positions

  function NewBit(bit: bool, m: Mask3): bool {
    bit != m.b
  }

  /** Position i of the refreshed sender; positions from KAPPA on do not change. */
  function NewCorrelation(ote: OTESender, sid: Bytes, me: PartyIndex, them: PartyIndex, seed: HashOutput): (c: seq<bool>)
    ensures |c| == |ote.correlation|
  {
    seq(|ote.correlation|, i requires 0 <= i < |ote.correlation| =>
      if i < KAPPA then NewBit(ote.correlation[i], MaskAt(sid, i, me, them, seed)) else ote.correlation[i])
  }

  function NewSeeds(ote: OTESender, sid: Bytes, me: PartyIndex, them: PartyIndex, seed: HashOutput): (s: seq<HashOutput>)
    requires |ote.correlation| >= KAPPA
    ensures |s| == |ote.seeds|
  {
    seq(|ote.seeds|, i requires 0 <= i < |ote.seeds| =>
      if i < KAPPA then
        SenderSeed(ote.seeds[i], NewBit(ote.correlation[i], MaskAt(sid, i, me, them, seed)), MaskAt(sid, i, me, them, seed))
      else ote.seeds[i])
  }

  /** The sender's state that party me refreshes for its pair with them. */
  function RefreshedSender(ote: OTESender, sid: Bytes, me: PartyIndex, them: PartyIndex, seed: HashOutput): OTESender
    requires |ote.correlation| >= KAPPA
  {
    OTESender(NewCorrelation(ote, sid, me, them, seed), NewSeeds(ote, sid, me, them, seed))
  }

  function NewSeeds0(ote: OTEReceiver, sid: Bytes, me: PartyIndex, them: PartyIndex, seed: HashOutput): (s: seq<HashOutput>)
    requires |ote.seeds0| >= KAPPA && |ote.seeds1| >= KAPPA
    ensures |s| == |ote.seeds0|
  {
    seq(|ote.seeds0|, i requires 0 <= i < |ote.seeds0| =>
      if i < KAPPA then ReceiverSeed0(ote.seeds0[i], ote.seeds1[i], MaskAt(sid, i, them, me, seed)) else ote.seeds0[i])
  }

  function NewSeeds1(ote: OTEReceiver, sid: Bytes, me: PartyIndex, them: PartyIndex, seed: HashOutput): (s: seq<HashOutput>)
    requires |ote.seeds0| >= KAPPA && |ote.seeds1| >= KAPPA
    ensures |s| == |ote.seeds1|
  {
    seq(|ote.seeds1|, i requires 0 <= i < |ote.seeds1| =>
      if i < KAPPA then ReceiverSeed1(ote.seeds0[i], ote.seeds1[i], MaskAt(sid, i, them, me, seed)) else ote.seeds1[i])
  }

  /** The receiver's state that party me refreshes for its pair with them: the index bytes are mirrored. */
  function RefreshedReceiver(ote: OTEReceiver, sid: Bytes, me: PartyIndex, them: PartyIndex, seed: HashOutput): OTEReceiver
    requires |ote.seeds0| >= KAPPA && |ote.seeds1| >= KAPPA
  {
    OTEReceiver(NewSeeds0(ote, sid, me, them, seed), NewSeeds1(ote, sid, me, them, seed))
  }

  /** One pass of the loop of refresh_phase4. */
  method RefreshPosition(correlation: array<bool>, seeds: array<HashOutput>, seeds0: array<HashOutput>, seeds1: array<HashOutput>,
                         i: nat, m: Mask3, m': Mask3)
    requires i < correlation.Length && i < seeds.Length && i < seeds0.Length && i < seeds1.Length
    requires seeds != seeds0 && seeds != seeds1 && seeds0 != seeds1
    modifies correlation, seeds, seeds0, seeds1
    ensures correlation[..] == old(correlation[..])[i := NewBit(old(correlation[i]), m)]
    ensures seeds[..] == old(seeds[..])[i := SenderSeed(old(seeds[i]), NewBit(old(correlation[i]), m), m)]
    ensures seeds0[..] == old(seeds0[..])[i := ReceiverSeed0(old(seeds0[i]), old(seeds1[i]), m')]
    ensures seeds1[..] == old(seeds1[..])[i := ReceiverSeed1(old(seeds0[i]), old(seeds1[i]), m')]
  {
    var b_double_prime := NewBit(correlation[i], m);
    correlation[i] := b_double_prime;
    seeds[i] := SenderSeed(seeds[i], b_double_prime, m);
    var r0_double_prime := ReceiverSeed0(seeds0[i], seeds1[i], m');
    var r1_double_prime := ReceiverSeed1(seeds0[i], seeds1[i], m');
    seeds0[i] := r0_double_prime;
    seeds1[i] := r1_double_prime;
  }

  lemma Advance<T>(target: seq<T>, before: seq<T>, i: nat)
    requires |target| == |before| && i < |target|
    ensures (target[..i] + before[i..])[i := target[i]] == target[..i + 1] + before[i + 1..]
    ensures (target[..i] + before[i..])[i] == before[i]
  {}

  lemma SenderTarget(ote: OTESender, sid: Bytes, me: PartyIndex, them: PartyIndex, seed: HashOutput, i: nat)
    requires i < KAPPA <= |ote.correlation| && i < |ote.seeds|
    ensures var m := MaskAt(sid, i, me, them, seed);
      && NewCorrelation(ote, sid, me, them, seed)[i] == NewBit(ote.correlation[i], m)
      && NewSeeds(ote, sid, me, them, seed)[i] == SenderSeed(ote.seeds[i], NewBit(ote.correlation[i], m), m)
  {
    hide MaskAt;
  }

  lemma ReceiverTarget(ote: OTEReceiver, sid: Bytes, me: PartyIndex, them: PartyIndex, seed: HashOutput, i: nat)
    requires i < KAPPA <= |ote.seeds0| && KAPPA <= |ote.seeds1|
    ensures var m := MaskAt(sid, i, them, me, seed);
      && NewSeeds0(ote, sid, me, them, seed)[i] == ReceiverSeed0(ote.seeds0[i], ote.seeds1[i], m)
      && NewSeeds1(ote, sid, me, them, seed)[i] == ReceiverSeed1(ote.seeds0[i], ote.seeds1[i], m)
  {
    hide MaskAt;
  }

  lemma SenderTail(ote: OTESender, sid: Bytes, me: PartyIndex, them: PartyIndex, seed: HashOutput)
    requires KAPPA <= |ote.correlation| && KAPPA <= |ote.seeds|
    ensures var c := NewCorrelation(ote, sid, me, them, seed); c[..KAPPA] + ote.correlation[KAPPA..] == c
    ensures var s := NewSeeds(ote, sid, me, them, seed); s[..KAPPA] + ote.seeds[KAPPA..] == s
  {
    hide MaskAt;
  }

  lemma ReceiverTail(ote: OTEReceiver, sid: Bytes, me: PartyIndex, them: PartyIndex, seed: HashOutput)
    requires KAPPA <= |ote.seeds0| && KAPPA <= |ote.seeds1|
    ensures var s := NewSeeds0(ote, sid, me, them, seed); s[..KAPPA] + ote.seeds0[KAPPA..] == s
    ensures var s := NewSeeds1(ote, sid, me, them, seed); s[..KAPPA] + ote.seeds1[KAPPA..] == s
  {
    hide MaskAt;
  }

  /** The loop of refresh_phase4 over all positions. */
  method RefreshInPlace(correlation: array<bool>, seeds: array<HashOutput>, seeds0: array<HashOutput>, seeds1: array<HashOutput>,
                        sid: Bytes, me: PartyIndex, them: PartyIndex, seed: HashOutput)
    requires correlation.Length >= KAPPA && seeds.Length >= KAPPA && seeds0.Length >= KAPPA && seeds1.Length >= KAPPA
    requires seeds != seeds0 && seeds != seeds1 && seeds0 != seeds1
    modifies correlation, seeds, seeds0, seeds1
    ensures OTESender(correlation[..], seeds[..]) == RefreshedSender(OTESender(old(correlation[..]), old(seeds[..])), sid, me, them, seed)
    ensures OTEReceiver(seeds0[..], seeds1[..]) == RefreshedReceiver(OTEReceiver(old(seeds0[..]), old(seeds1[..])), sid, me, them, seed)
  {
    hide MaskAt, SenderSeed, ReceiverSeed0, ReceiverSeed1, NewBit, NewCorrelation, NewSeeds, NewSeeds0, NewSeeds1;
    ghost var sender := OTESender(correlation[..], seeds[..]);
    ghost var receiver := OTEReceiver(seeds0[..], seeds1[..]);
    ghost var target := RefreshedSender(sender, sid, me, them, seed);
    ghost var target' := RefreshedReceiver(receiver, sid, me, them, seed);
    for i := 0 to KAPPA
      invariant correlation[..] == target.correlation[..i] + sender.correlation[i..]
      invariant seeds[..] == target.seeds[..i] + sender.seeds[i..]
      invariant seeds0[..] == target'.seeds0[..i] + receiver.seeds0[i..]
      invariant seeds1[..] == target'.seeds1[..i] + receiver.seeds1[i..]
    {
      Advance(target.correlation, sender.correlation, i);
      Advance(target.seeds, sender.seeds, i);
      Advance(target'.seeds0, receiver.seeds0, i);
      Advance(target'.seeds1, receiver.seeds1, i);
      SenderTarget(sender, sid, me, them, seed, i);
      ReceiverTarget(receiver, sid, me, them, seed, i);
      RefreshPosition(correlation, seeds, seeds0, seeds1, i, MaskAt(sid, i, me, them, seed), MaskAt(sid, i, them, me, seed));
    }
    SenderTail(sender, sid, me, them, seed);
    ReceiverTail(receiver, sid, me, them, seed);
  }

  /** Run independently by the two parties with the same seed, the loop keeps the OT relation in all positions. */
  lemma RefreshKeepsMatching(sender: OTESender, receiver: OTEReceiver, sid: Bytes, a: PartyIndex, b: PartyIndex, seed: HashOutput)
    requires Matching(sender, receiver)
    ensures Matching(RefreshedSender(sender, sid, a, b, seed), RefreshedReceiver(receiver, sid, b, a, seed))
  {
    hide MaskAt, SenderSeed, ReceiverSeed0, ReceiverSeed1;
    forall i | 0 <= i < KAPPA
      ensures var m := MaskAt(sid, i, a, b, seed);
        var new_bit := NewBit(sender.correlation[i], m);
        SenderSeed(sender.seeds[i], new_bit, m)
        == if new_bit then ReceiverSeed1(receiver.seeds0[i], receiver.seeds1[i], m) else ReceiverSeed0(receiver.seeds0[i], receiver.seeds1[i], m)
    {
      TrickKeepsRelation(sender.correlation[i], sender.seeds[i], receiver.seeds0[i], receiver.seeds1[i], MaskAt(sid, i, a, b, seed));
    }
  }

  /** Both ends of a pair, refreshed by one party. */
  function RefreshedEnds(sender: MulSender, receiver: MulReceiver, sid: Bytes, me: PartyIndex, them: PartyIndex, seed: HashOutput)
    : (MulSender, MulReceiver)
    requires Refreshable(sender, receiver)
  {
    (MulSenderFields(sender.public_gadget, RefreshedSender(sender.ote_sender, sid, me, them, seed)),
     MulReceiverFields(receiver.public_gadget, RefreshedReceiver(receiver.ote_receiver, sid, me, them, seed)))
  }

  /** The OT states are long enough for the loop; a shorter one makes it panic. */
  predicate Refreshable(sender: MulSender, receiver: MulReceiver) {
    && |sender.ote_sender.correlation| >= KAPPA && |sender.ote_sender.seeds| >= KAPPA
    && |receiver.ote_receiver.seeds0| >= KAPPA && |receiver.ote_receiver.seeds1| >= KAPPA
  }

  method RefreshEnds(sender: MulSender, receiver: MulReceiver, sid: Bytes, me: PartyIndex, them: PartyIndex, seed: HashOutput)
    returns (new_sender: MulSender, new_receiver: MulReceiver)
    requires Refreshable(sender, receiver)
    ensures (new_sender, new_receiver) == RefreshedEnds(sender, receiver, sid, me, them, seed)
  {
    hide RefreshedSender, RefreshedReceiver;
    var s, r := sender.ote_sender, receiver.ote_receiver;
    var correlation := new bool[|s.correlation|](i requires 0 <= i < |s.correlation| => s.correlation[i]);
    var seeds := new HashOutput[|s.seeds|](i requires 0 <= i < |s.seeds| => s.seeds[i]);
    var seeds0 := new HashOutput[|r.seeds0|](i requires 0 <= i < |r.seeds0| => r.seeds0[i]);
    var seeds1 := new HashOutput[|r.seeds1|](i requires 0 <= i < |r.seeds1| => r.seeds1[i]);
    assert correlation[..] == s.correlation && seeds[..] == s.seeds && seeds0[..] == r.seeds0 && seeds1[..] == r.seeds1;
    RefreshInPlace(correlation, seeds, seeds0, seeds1, sid, me, them, seed);
    new_sender := MulSenderFields(sender.public_gadget, OTESender(correlation[..], seeds[..]));
    new_receiver := MulReceiverFields(receiver.public_gadget, OTEReceiver(seeds0[..], seeds1[..]));
  }

  /** Two parties that each refresh their ends with the same seed stay paired, both ways round. */
  lemma RefreshKeepsPairs(sa: MulSender, ra: MulReceiver, sb: MulSender, rb: MulReceiver, sid: Bytes, a: PartyIndex,
                          b: PartyIndex, seed: HashOutput)
    requires Paired(sa, rb) && Paired(sb, ra)
    ensures Refreshable(sa, ra) && Refreshable(sb, rb)
    ensures var (sa', ra') := RefreshedEnds(sa, ra, sid, a, b, seed);
      var (sb', rb') := RefreshedEnds(sb, rb, sid, b, a, seed);
      Paired(sa', rb') && Paired(sb', ra')
  {
    hide RefreshedSender, RefreshedReceiver;
    RefreshKeepsMatching(sa.ote_sender, rb.ote_receiver, sid, a, b, seed);
    RefreshKeepsMatching(sb.ote_sender, ra.ote_receiver, sid, b, a, seed);
  }
}
