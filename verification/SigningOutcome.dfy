/** The outcome of an honest signing run: nobody aborts, all parties get the same r, and the broadcast
    shares assemble to the signature of a single signer. */
module SigningOutcome {
  import opened Outcomes
  import opened PrimeField
  import opened Sums
  import opened Polynomials
  import opened Hashes
  import opened Curve
  import opened Sequences
  import opened Proofs
  import opened Multiplication
  import opened Protocols
  import opened ZeroShares
  import opened PartyStates
  import opened Ecdsa
  import opened Signing
  import opened SigningMessages
  import opened SigningAlgebra
  import opened SigningRuns

  // Values of all members, in the order of the group

  ghost function KeyShareRow(run: SigningRun): (s: seq<Scalar>)
    requires ValidRun(run)
    ensures |s| == |run.group|
  {
    seq<Scalar>(|run.group|, a requires 0 <= a < |run.group| => KeyShareOf(run, run.group[a]))
  }

  ghost function InstanceKeyRow(run: SigningRun): (s: seq<Scalar>)
    ensures |s| == |run.group|
  {
    seq<Scalar>(|run.group|, a requires 0 <= a < |run.group| => InstanceKey(run, run.group[a]))
  }

  ghost function MaskRow(run: SigningRun): (s: seq<Scalar>)
    ensures |s| == |run.group|
  {
    seq<Scalar>(|run.group|, a requires 0 <= a < |run.group| => InversionMask(run, run.group[a]))
  }

  /** The instance key of the whole group. */
  ghost function TotalKey(run: SigningRun): Scalar {
    Sum(InstanceKeyRow(run))
  }

  /** The inversion mask of the whole group. */
  ghost function TotalMask(run: SigningRun): Scalar {
    Sum(MaskRow(run))
  }

  ghost function SecretKey(run: SigningRun): Scalar {
    Eval(run.polynomial, 0)
  }

  ghost function Orders(run: SigningRun): seq<seq<PartyIndex>> {
    seq(|run.group|, a requires 0 <= a < |run.group| => run.orders(run.group[a]))
  }

  lemma SameZeroSid(run: SigningRun, i: PartyIndex, j: PartyIndex)
    requires ValidRun(run) && i in run.group && j in run.group
    ensures i in run.ps && j in run.ps && ZeroSid(run.ps[i], DataOf(run, i)) == ZeroSid(run.ps[j], DataOf(run, j))
  {
    hide PairwiseSeeds, AllPaired, SharesOf;
  }

  /** No Lagrange coefficient fails, and the key shares add up to the secret key. */
  lemma KeySharesTotal(run: SigningRun)
    requires ValidRun(run)
    ensures forall i :: i in run.group ==> i in run.ps && KeyShare(run.ps[i], run.orders(i), ZetaOf(run, i)).Some?
    ensures Sum(KeyShareRow(run)) == SecretKey(run)
  {
    hide PairwiseSeeds, AllPaired, SharesOf, Zeta, KeyShare, Eval, ZeroSid, Sum;
    var group, orders := run.group, Orders(run);
    var sid := ZeroSid(run.ps[group[0]], DataOf(run, group[0]));
    forall a | 0 <= a < |group| ensures group[a] in run.ps && Lists(group, a, orders[a]) {
      assert group[a] in group;
    }
    KeySharesSum(run.ps, run.parameters, run.polynomial, run.session_id, run.chain_code, group, orders, sid);
    forall a | 0 <= a < |group|
      ensures KeyShare(run.ps[group[a]], orders[a], ZetaOf(run, group[a])).Some?
      ensures KeyShareRow(run)[a] == KeyShares(run.ps, group, orders, sid)[a]
    {
      SameZeroSid(run, group[a], group[0]);
      assert group[a] in group;
      ShareExists(run, a);
    }
    assert KeyShareRow(run) == KeyShares(run.ps, group, orders, sid);
    forall i | i in group ensures KeyShare(run.ps[i], run.orders(i), ZetaOf(run, i)).Some? {
      var a :| 0 <= a < |group| && group[a] == i;
    }
  }

  lemma ShareExists(run: SigningRun, a: nat)
    requires ValidRun(run) && a < |run.group| && run.group[a] in run.ps
    ensures KeyShare(run.ps[run.group[a]], run.orders(run.group[a]), ZetaOf(run, run.group[a])).Some?
  {
    hide PairwiseSeeds, AllPaired, SharesOf, Zeta, LagrangeDenominator;
    var i := run.group[a];
    assert i in run.group;
    DenominatorZero(i, run.orders(i));
  }

  /** Phase 2 succeeds for every order in which the messages arrive. */
  lemma Phase2Honest(run: SigningRun, i: PartyIndex, order: seq<PartyIndex>)
    requires ValidRun(run) && i in run.group && ListsOthers(run, i, order)
    ensures i in run.ps && AllPairs(run, i, order) && AllPairs(run, i, run.orders(i))
    ensures Phase2Outcome(run.ps[i], DataOf(run, i), Unique1(run, i), Kept1For(run, i, run.orders(i)), run.draws(i), Inbox1(run, i, order))
            == Ok((Unique2(run, i), Kept2For(run, i, order), Messages2(run, i, order)))
  {
    hide ValidRun, Phase2Loop, Keep1, Message1, Message2, Keep2, KeyShare;
    var kept := PreparePhase2(run, i, order);
    Phase2LoopIs(run, i, kept, [], order);
    assert [] + order == order;
    assert Kept2For(run, i, []) == map[] && Messages2(run, i, []) == [] && Elements<PartyIndex>([]) == {};
  }

  lemma PreparePhase2(run: SigningRun, i: PartyIndex, order: seq<PartyIndex>) returns (kept: Kept1)
    requires ValidRun(run) && i in run.group && ListsOthers(run, i, order)
    ensures i in run.ps && AllPairs(run, i, order) && AllPairs(run, i, run.orders(i))
    ensures |order| == |run.orders(i)| && AllPairs(run, i, [] + order) && NoRepeats([] + order)
    ensures kept == Kept1For(run, i, run.orders(i))
    ensures forall j :: j in [] + order ==> j in run.orders(i) && j in kept && Pair(run, i, j) && kept[j] == Keep1(run, i, j)
    ensures KeyShare(run.ps[i], run.orders(i), ZetaOf(run, i)) == Some(KeyShareOf(run, i)) && run.ps[i].party_index == i
  {
    hide ConsistentParties, Keep1, KeyShare;
    OrderPairs(run, i, order);
    OrderPairs(run, i, run.orders(i));
    KeySharesTotal(run);
    kept := Kept1For(run, i, run.orders(i));
    assert [] + order == order;
  }

  // Phase 3

  ghost function Inbox2(run: SigningRun, i: PartyIndex, order: seq<PartyIndex>): (m: seq<TransmitPhase2to3>)
    requires ValidRun(run) && AllPairs(run, i, order)
    ensures |m| == |order|
  {
    seq(|order|, k requires 0 <= k < |order| => Message2(run, order[k], i))
  }

  /** The consistency checks on gamma_u and gamma_v hold, and the receiver's outputs are the expected ones. */
  lemma Phase3ContentIs(run: SigningRun, i: PartyIndex, j: PartyIndex, kept: Kept2)
    requires ValidRun(run) && Pair(run, i, j) && j in kept && kept[j] == Keep2(run, i, j)
    ensures i in run.ps
    ensures Phase3Content(run.ps[i], DataOf(run, i), kept, Message2(run, j, i))
            == Ok((Between(run, i, j).d[0], Between(run, i, j).d[1]))
  {
    hide ValidRun, MulSid, MulReceiverRun1, MulReceiverRun2, MulSenderRun, KeyShareOf, Commitment;
    PairReady(run, i, j);
    BetweenIs(run, i, j);
    var x := Between(run, i, j);
    Commute(x.c[0], x.d[0]);
    Commute(x.c[1], x.d[1]);
  }

  // Tables over the positions of the group

  /** chi of receiver group[b] towards sender group[a]. */
  ghost function ChiEntry(run: SigningRun, a: nat, b: nat): Scalar
    requires ValidRun(run) && a < |run.group| && b < |run.group|
  {
    if a == b then 0 else Between(run, run.group[b], run.group[a]).chi
  }

  /** Output w (0 for u, 1 for v) of group[a] as sender for group[b]. */
  ghost function SentEntry(run: SigningRun, w: nat, a: nat, b: nat): Scalar
    requires ValidRun(run) && a < |run.group| && b < |run.group| && w < L
  {
    if a == b then 0 else (BetweenIs(run, run.group[b], run.group[a]); Between(run, run.group[b], run.group[a]).c[w])
  }

  /** Output w of group[a] as receiver from group[b]. */
  ghost function GotEntry(run: SigningRun, w: nat, a: nat, b: nat): Scalar
    requires ValidRun(run) && a < |run.group| && b < |run.group| && w < L
  {
    if a == b then 0 else (BetweenIs(run, run.group[a], run.group[b]); Between(run, run.group[a], run.group[b]).d[w])
  }

  ghost function ChiRow(run: SigningRun, a: nat): (r: seq<Scalar>)
    requires ValidRun(run) && a < |run.group|
    ensures |r| == |run.group|
  {
    seq<Scalar>(|run.group|, b requires 0 <= b < |run.group| => ChiEntry(run, a, b))
  }

  ghost function SentRow(run: SigningRun, w: nat, a: nat): (r: seq<Scalar>)
    requires ValidRun(run) && a < |run.group| && w < L
    ensures |r| == |run.group|
  {
    seq<Scalar>(|run.group|, b requires 0 <= b < |run.group| => SentEntry(run, w, a, b))
  }

  ghost function GotRow(run: SigningRun, w: nat, a: nat): (r: seq<Scalar>)
    requires ValidRun(run) && a < |run.group| && w < L
    ensures |r| == |run.group|
  {
    seq<Scalar>(|run.group|, b requires 0 <= b < |run.group| => GotEntry(run, w, a, b))
  }

  /** phi minus the masks that the others subtracted for group[a]: what phase 3 adds the psi up to. */
  ghost function PsiTotal(run: SigningRun, a: nat): Scalar
    requires ValidRun(run) && a < |run.group|
  {
    Sub(TotalMask(run), Sum(ChiRow(run, a)))
  }

  ghost function OutputTotal(run: SigningRun, w: nat, a: nat): Scalar
    requires ValidRun(run) && a < |run.group| && w < L
  {
    Add(Sum(SentRow(run, w, a)), Sum(GotRow(run, w, a)))
  }

  // Sums over the received messages as row sums

  lemma ZeroedSum(row: seq<Scalar>, a: nat)
    requires a < |row|
    ensures Sum(row) == Add(row[a], Sum(row[a := 0]))
  {
    var z := row[a := 0];
    SumSplit(row, a);
    SumSplit(z, a);
    assert Without(z, a) == Without(row, a);
    Identities(Sum(Without(row, a)));
    Commute(row[a], Sum(Without(row, a)));
  }

  lemma SumSub(x: seq<Scalar>, y: seq<Scalar>, d: seq<Scalar>)
    requires |x| == |y| == |d| && forall i :: 0 <= i < |x| ==> d[i] == Sub(x[i], y[i])
    ensures Sum(d) == Sub(Sum(x), Sum(y))
  {
    var n := seq<Scalar>(|y|, i requires 0 <= i < |y| => Neg(y[i]));
    SumAdd(x, n, d);
    SumNeg(y, n);
  }

  lemma {:induction false} SumNeg(y: seq<Scalar>, n: seq<Scalar>)
    requires |n| == |y| && forall i :: 0 <= i < |y| ==> n[i] == Neg(y[i])
    ensures Sum(n) == Neg(Sum(y))
  {
    if y == [] {
      Identities(0);
    } else {
      var k := |y| - 1;
      SumNeg(y[..k], n[..k]);
      NegSum(Sum(y[..k]), y[k]);
    }
  }

  lemma NegSum(a: Scalar, b: Scalar)
    ensures Add(Neg(a), Neg(b)) == Neg(Add(a, b))
  {
    Ring();
  }

  lemma MessageFields(run: SigningRun, i: PartyIndex, j: PartyIndex)
    requires ValidRun(run) && Pair(run, i, j) && i in run.ps
    ensures PublicLog(Message2(run, i, j)) == KeyShareOf(run, i)
    ensures InstanceLog(Message2(run, i, j)) == InstanceKey(run, i)
    ensures Psi(Message2(run, i, j)) == Sub(InversionMask(run, i), Between(run, i, j).chi)
    ensures Message2(run, i, j).parties == PartiesMessage(i, j)
  {
    hide ValidRun;
  }

  lemma PublicSum(run: SigningRun, a: nat, order: seq<PartyIndex>)
    requires ValidRun(run) && a < |run.group| && ListsOthers(run, run.group[a], order) && AllPairs(run, run.group[a], order)
    ensures Add(KeyShareRow(run)[a], SumOver(PublicLog, Inbox2(run, run.group[a], order))) == SecretKey(run)
  {
    hide ConsistentParties, Message2, KeyShareOf, Sum;
    var i := run.group[a];
    var inbox := Inbox2(run, i, order);
    var row := KeyShareRow(run)[a := 0];
    forall k, b | 0 <= k < |order| && 0 <= b < |run.group| && order[k] == run.group[b]
      ensures Mapped(PublicLog, inbox)[k] == row[b]
    {
      assert Pair(run, i, order[k]);
      MessageFields(run, order[k], i);
    }
    OrderIsRow(run.group, a, order, Mapped(PublicLog, inbox), row);
    ZeroedSum(KeyShareRow(run), a);
    KeySharesTotal(run);
  }

  lemma InstanceSum(run: SigningRun, a: nat, order: seq<PartyIndex>)
    requires ValidRun(run) && a < |run.group| && ListsOthers(run, run.group[a], order) && AllPairs(run, run.group[a], order)
    ensures Add(InstanceKey(run, run.group[a]), SumOver(InstanceLog, Inbox2(run, run.group[a], order))) == TotalKey(run)
  {
    hide ConsistentParties, Message2, Sum;
    var i := run.group[a];
    var inbox := Inbox2(run, i, order);
    var row := InstanceKeyRow(run)[a := 0];
    forall k, b | 0 <= k < |order| && 0 <= b < |run.group| && order[k] == run.group[b]
      ensures Mapped(InstanceLog, inbox)[k] == row[b]
    {
      assert Pair(run, i, order[k]);
      MessageFields(run, order[k], i);
    }
    OrderIsRow(run.group, a, order, Mapped(InstanceLog, inbox), row);
    ZeroedSum(InstanceKeyRow(run), a);
  }

  lemma PsiSum(run: SigningRun, a: nat, order: seq<PartyIndex>)
    requires ValidRun(run) && a < |run.group| && ListsOthers(run, run.group[a], order) && AllPairs(run, run.group[a], order)
    ensures Add(InversionMask(run, run.group[a]), SumOver(Psi, Inbox2(run, run.group[a], order))) == PsiTotal(run, a)
  {
    hide ConsistentParties, Message2, Sum, Inbox2, ChiRow, MaskRow;
    var i := run.group[a];
    var inbox := Inbox2(run, i, order);
    var masks := MaskRow(run)[a := 0];
    var row := PsiRow(run, a);
    PsiEntries(run, a, order);
    OrderIsRow(run.group, a, order, Mapped(Psi, inbox), row);
    SumSub(masks, ChiRow(run, a), row);
    ZeroedSum(MaskRow(run), a);
    AddAssoc(MaskRow(run)[a], Sum(masks), Neg(Sum(ChiRow(run, a))));
  }

  /** What group[a] is sent as psi, by position of the sender. */
  ghost function PsiRow(run: SigningRun, a: nat): (r: seq<Scalar>)
    requires ValidRun(run) && a < |run.group|
    ensures |r| == |run.group|
  {
    seq<Scalar>(|run.group|, b requires 0 <= b < |run.group| => Sub(MaskRow(run)[a := 0][b], ChiRow(run, a)[b]))
  }

  lemma PsiEntries(run: SigningRun, a: nat, order: seq<PartyIndex>)
    requires ValidRun(run) && a < |run.group| && ListsOthers(run, run.group[a], order) && AllPairs(run, run.group[a], order)
    ensures PsiRow(run, a)[a] == 0 && Lists(run.group, a, order) && NoRepeats(run.group)
    ensures forall k, b :: 0 <= k < |order| && 0 <= b < |run.group| && order[k] == run.group[b] ==>
      Mapped(Psi, Inbox2(run, run.group[a], order))[k] == PsiRow(run, a)[b]
    ensures MaskRow(run)[a] == InversionMask(run, run.group[a])
  {
    hide ConsistentParties, Message2;
    var i := run.group[a];
    Identities(0);
    forall k, b | 0 <= k < |order| && 0 <= b < |run.group| && order[k] == run.group[b]
      ensures Mapped(Psi, Inbox2(run, i, order))[k] == PsiRow(run, a)[b]
    {
      assert Pair(run, i, order[k]);
      MessageFields(run, order[k], i);
    }
  }

  lemma SummandsAre(run: SigningRun, a: nat, b: nat, kept: Kept2)
    requires ValidRun(run) && a < |run.group| && b < |run.group| && Pair(run, run.group[a], run.group[b])
    requires run.group[b] in kept && kept[run.group[b]] == Keep2(run, run.group[a], run.group[b])
    ensures var i, j := run.group[a], run.group[b];
      && i in run.ps && j in run.ps
      && USummand(run.ps[i], DataOf(run, i), kept, Message2(run, j, i)) == Add(SentEntry(run, 0, a, b), GotEntry(run, 0, a, b))
      && VSummand(run.ps[i], DataOf(run, i), kept, Message2(run, j, i)) == Add(SentEntry(run, 1, a, b), GotEntry(run, 1, a, b))
  {
    hide ValidRun, Phase3Content, IsExchange;
    var i, j := run.group[a], run.group[b];
    PairReady(run, i, j);
    Phase3ContentIs(run, i, j, kept);
    MessageFields(run, j, i);
  }

  lemma OutputSum(run: SigningRun, w: nat, a: nat, order: seq<PartyIndex>, values: seq<Scalar>)
    requires ValidRun(run) && a < |run.group| && ListsOthers(run, run.group[a], order) && w < L
    requires |values| == |order|
    requires forall k, b :: 0 <= k < |order| && 0 <= b < |run.group| && order[k] == run.group[b] ==>
      values[k] == Add(SentEntry(run, w, a, b), GotEntry(run, w, a, b))
    ensures Sum(values) == OutputTotal(run, w, a)
  {
    hide ConsistentParties, Sum;
    var row := seq<Scalar>(|run.group|, b requires 0 <= b < |run.group| => Add(SentRow(run, w, a)[b], GotRow(run, w, a)[b]));
    Identities(0);
    assert SentEntry(run, w, a, a) == 0 && GotEntry(run, w, a, a) == 0;
    OrderIsRow(run.group, a, order, values, row);
    SumAdd(SentRow(run, w, a), GotRow(run, w, a), row);
  }

  // The broadcasts

  ghost function UShare(run: SigningRun, a: nat): Scalar
    requires ValidRun(run) && a < |run.group|
  {
    Add(Mul(InstanceKey(run, run.group[a]), PsiTotal(run, a)), OutputTotal(run, 0, a))
  }

  ghost function VShare(run: SigningRun, a: nat): Scalar
    requires ValidRun(run) && a < |run.group|
  {
    Add(Mul(KeyShareOf(run, run.group[a]), PsiTotal(run, a)), OutputTotal(run, 1, a))
  }

  ghost function XCoord(run: SigningRun): nat {
    X(Base(TotalKey(run)))
  }

  ghost function BroadcastOf(run: SigningRun, a: nat): Broadcast3to4
    requires ValidRun(run) && a < |run.group|
  {
    Broadcast3to4(UShare(run, a),
      Add(Mul(ReduceHash(run.message_hash), InversionMask(run, run.group[a])), Mul(VShare(run, a), Of(XCoord(run)))))
  }

  /** No member other than i has drawn the instance key zero. */
  ghost predicate OthersNonZero(run: SigningRun, i: PartyIndex) {
    forall j :: j in run.group && j != i ==> InstanceKey(run, j) != 0
  }

  /** The conditions of phase 3, for i. */
  ghost predicate PassesPhase3(run: SigningRun, i: PartyIndex) {
    OthersNonZero(run, i) && TotalKey(run) != 0
  }

  /** The conditions of phase 4: no factor of the signature vanishes, and X(kG) is a non-zero canonical scalar. */
  ghost predicate PassesPhase4(run: SigningRun) {
    && TotalKey(run) != 0 && TotalMask(run) != 0 && 0 < XCoord(run) < Q
    && Add(ReduceHash(run.message_hash), Mul(XCoord(run), SecretKey(run))) != 0
  }

  ghost function PositionOf(run: SigningRun, i: PartyIndex): (a: nat)
    requires i in run.group
    ensures a < |run.group| && run.group[a] == i
  {
    var a :| 0 <= a < |run.group| && run.group[a] == i;
    a
  }

  lemma MessageAcceptable(run: SigningRun, i: PartyIndex, j: PartyIndex, kept: Kept2)
    requires ValidRun(run) && Pair(run, i, j) && j in kept && kept[j] == Keep2(run, i, j)
    ensures i in run.ps && Message2(run, j, i).parties.sender == j
    ensures Acceptable(run.ps[i], DataOf(run, i), kept, Message2(run, j, i)) <==> InstanceKey(run, j) != 0
  {
    hide ConsistentParties, Message2, Phase3Content, Keep2;
    PairReady(run, i, j);
    Phase3ContentIs(run, i, j, kept);
    MessageFields(run, j, i);
  }

  /** The messages of an honest inbox are acceptable just when none of the senders has drawn the instance key zero. */
  lemma InboxAcceptable(run: SigningRun, i: PartyIndex, order: seq<PartyIndex>, kept: Kept2)
    requires ValidRun(run) && i in run.group && ListsOthers(run, i, order) && AllPairs(run, i, order)
    requires forall j :: j in order ==> Pair(run, i, j) && j in kept && kept[j] == Keep2(run, i, j)
    ensures i in run.ps
    ensures AllAcceptable(run.ps[i], DataOf(run, i), kept, Inbox2(run, i, order), {}) <==> OthersNonZero(run, i)
  {
    hide ConsistentParties, Message2, Acceptable, Keep2;
    var inbox := Inbox2(run, i, order);
    OrderPairs(run, i, order);
    forall k | 0 <= k < |order|
      ensures Acceptable(run.ps[i], DataOf(run, i), kept, inbox[k]) <==> InstanceKey(run, order[k]) != 0
      ensures Mapped(SenderOf2, inbox)[k] == order[k] && inbox[k].parties.sender == order[k]
    {
      assert order[k] in order;
      MessageAcceptable(run, i, order[k], kept);
      SenderAt(inbox, k);
    }
    assert Mapped(SenderOf2, inbox) == order;
    assert forall k :: 0 <= k < |order| ==> order[k] in order && inbox[k] in inbox;
    assert OthersNonZero(run, i) <==> forall k :: 0 <= k < |order| ==> InstanceKey(run, order[k]) != 0;
  }

  lemma ClosedTotalsAre(run: SigningRun, a: nat, order: seq<PartyIndex>, kept: Kept2)
    requires ValidRun(run) && a < |run.group| && ListsOthers(run, run.group[a], order) && AllPairs(run, run.group[a], order)
    requires forall j :: j in order ==> Pair(run, run.group[a], j) && j in kept && kept[j] == Keep2(run, run.group[a], j)
    ensures run.group[a] in run.ps
    ensures ClosedTotals(run.ps[run.group[a]], DataOf(run, run.group[a]), kept, Inbox2(run, run.group[a], order),
                         InitialTotals(Unique2(run, run.group[a])))
            == Totals(Base(SecretKey(run)), Base(TotalKey(run)), PsiTotal(run, a), OutputTotal(run, 0, a), OutputTotal(run, 1, a))
  {
    hide ConsistentParties, Message2, SumOver, PsiTotal, OutputTotal, SecretKey, TotalKey, KeyShareOf, Keep2, Inbox2;
    var i := run.group[a];
    assert i in run.group;
    PublicSum(run, a, order);
    InstanceSum(run, a, order);
    PsiSum(run, a, order);
    USum(run, a, order, kept);
    VSum(run, a, order, kept);
    LeftZero(OutputTotal(run, 0, a));
    LeftZero(OutputTotal(run, 1, a));
  }

  lemma USum(run: SigningRun, a: nat, order: seq<PartyIndex>, kept: Kept2)
    requires ValidRun(run) && a < |run.group| && ListsOthers(run, run.group[a], order) && AllPairs(run, run.group[a], order)
    requires forall j :: j in order ==> Pair(run, run.group[a], j) && j in kept && kept[j] == Keep2(run, run.group[a], j)
    ensures run.group[a] in run.ps
    ensures SumOver(USummands(run.ps[run.group[a]], DataOf(run, run.group[a]), kept), Inbox2(run, run.group[a], order))
            == OutputTotal(run, 0, a)
  {
    hide ConsistentParties, Message2, USummand, Keep2, OutputTotal, Sum, SentEntry, GotEntry;
    var i := run.group[a];
    assert i in run.group;
    var inbox := Inbox2(run, i, order);
    var f := USummands(run.ps[i], DataOf(run, i), kept);
    forall k, b | 0 <= k < |order| && 0 <= b < |run.group| && order[k] == run.group[b]
      ensures Mapped(f, inbox)[k] == Add(SentEntry(run, 0, a, b), GotEntry(run, 0, a, b))
    {
      assert order[k] in order;
      SummandsAre(run, a, b, kept);
    }
    OutputSum(run, 0, a, order, Mapped(f, inbox));
  }

  lemma VSum(run: SigningRun, a: nat, order: seq<PartyIndex>, kept: Kept2)
    requires ValidRun(run) && a < |run.group| && ListsOthers(run, run.group[a], order) && AllPairs(run, run.group[a], order)
    requires forall j :: j in order ==> Pair(run, run.group[a], j) && j in kept && kept[j] == Keep2(run, run.group[a], j)
    ensures run.group[a] in run.ps
    ensures SumOver(VSummands(run.ps[run.group[a]], DataOf(run, run.group[a]), kept), Inbox2(run, run.group[a], order))
            == OutputTotal(run, 1, a)
  {
    hide ConsistentParties, Message2, VSummand, Keep2, OutputTotal, Sum, SentEntry, GotEntry;
    var i := run.group[a];
    assert i in run.group;
    var inbox := Inbox2(run, i, order);
    var f := VSummands(run.ps[i], DataOf(run, i), kept);
    forall k, b | 0 <= k < |order| && 0 <= b < |run.group| && order[k] == run.group[b]
      ensures Mapped(f, inbox)[k] == Add(SentEntry(run, 1, a, b), GotEntry(run, 1, a, b))
    {
      assert order[k] in order;
      SummandsAre(run, a, b, kept);
    }
    OutputSum(run, 1, a, order, Mapped(f, inbox));
  }

  lemma PartyFacts(run: SigningRun, i: PartyIndex)
    requires ValidRun(run) && i in run.group
    ensures i in run.ps && run.ps[i].party_index == i && run.ps[i].pk == Base(SecretKey(run))
  {
    hide PairwiseSeeds, AllPaired, SharesOf, Eval;
  }

  /** For every order in which the messages arrive, phase 3 succeeds just when no sender has drawn the instance key zero
      and the instance keys do not add up to zero. What it then returns does not depend on the order. */
  lemma Phase3Honest(run: SigningRun, i: PartyIndex, order: seq<PartyIndex>, arrived: seq<PartyIndex>)
    requires ValidRun(run) && i in run.group
    requires ListsOthers(run, i, order) && ListsOthers(run, i, arrived)
    ensures i in run.ps && AllPairs(run, i, order) && AllPairs(run, i, arrived)
    ensures var r := Phase3Outcome(run.ps[i], DataOf(run, i), Unique2(run, i), Kept2For(run, i, order), Inbox2(run, i, arrived));
      if PassesPhase3(run, i) then r == Ok((XCoord(run), BroadcastOf(run, PositionOf(run, i)))) else r.Err?
  {
    hide ConsistentParties, Message2, Phase3Loop, ClosedTotals, AllAcceptable, Keep2, PsiTotal, OutputTotal, KeyShareOf,
         SecretKey, TotalKey, TotalMask, Inbox2, OthersNonZero;
    var a := PositionOf(run, i);
    OrderPairs(run, i, order);
    OrderPairs(run, i, arrived);
    OrderPairs(run, i, run.orders(i));
    PartyFacts(run, i);
    var kept := Kept2For(run, i, order);
    forall j | j in arrived ensures Pair(run, i, j) && j in kept && kept[j] == Keep2(run, i, j) {
      assert j in order;
    }
    InboxAcceptable(run, i, arrived, kept);
    Phase3LoopMeaning(run.ps[i], DataOf(run, i), kept, Inbox2(run, i, arrived), {}, InitialTotals(Unique2(run, i)));
    ClosedTotalsAre(run, a, arrived, kept);
  }

  // The totals of the broadcasts

  ghost function UShareRow(run: SigningRun): (s: seq<Scalar>)
    requires ValidRun(run)
    ensures |s| == |run.group|
  {
    seq<Scalar>(|run.group|, a requires 0 <= a < |run.group| => UShare(run, a))
  }

  ghost function VShareRow(run: SigningRun): (s: seq<Scalar>)
    requires ValidRun(run)
    ensures |s| == |run.group|
  {
    seq<Scalar>(|run.group|, a requires 0 <= a < |run.group| => VShare(run, a))
  }

  ghost function ChiTable(run: SigningRun): seq<seq<Scalar>>
    requires ValidRun(run)
  {
    seq(|run.group|, a requires 0 <= a < |run.group| => ChiRow(run, a))
  }

  ghost function SentTable(run: SigningRun, w: nat): seq<seq<Scalar>>
    requires ValidRun(run) && w < L
  {
    seq(|run.group|, a requires 0 <= a < |run.group| => SentRow(run, w, a))
  }

  ghost function GotTable(run: SigningRun, w: nat): seq<seq<Scalar>>
    requires ValidRun(run) && w < L
  {
    seq(|run.group|, a requires 0 <= a < |run.group| => GotRow(run, w, a))
  }

  ghost function InputRow(run: SigningRun, w: nat): (s: seq<Scalar>)
    requires ValidRun(run) && w < L
    ensures |s| == |run.group|
  {
    if w == 0 then InstanceKeyRow(run) else KeyShareRow(run)
  }

  lemma EntriesAdd(run: SigningRun, w: nat, a: nat, b: nat)
    requires ValidRun(run) && w < L && a < |run.group| && b < |run.group|
    ensures Add(SentEntry(run, w, a, b), GotEntry(run, w, b, a)) == Mul(InputRow(run, w)[a], ChiEntry(run, a, b))
  {
    hide ConsistentParties, KeyShareOf;
    if a == b {
      Identities(0);
      Identities(InputRow(run, w)[a]);
    } else {
      BetweenIs(run, run.group[b], run.group[a]);
    }
  }

  lemma TablesExchange(run: SigningRun, w: nat)
    requires ValidRun(run) && w < L
    ensures Exchanges(|run.group|, InputRow(run, w), ChiTable(run), SentTable(run, w), GotTable(run, w))
  {
    hide ValidRun, SentEntry, GotEntry, ChiEntry, InputRow;
    forall a, b | 0 <= a < |run.group| && 0 <= b < |run.group|
      ensures Add(SentTable(run, w)[a][b], GotTable(run, w)[b][a]) == Mul(InputRow(run, w)[a], ChiTable(run)[a][b])
    {
      EntriesAdd(run, w, a, b);
    }
  }

  /** The u shares add up to k * phi and the v shares to sk * phi. */
  lemma ShareTotals(run: SigningRun)
    requires ValidRun(run)
    ensures Sum(UShareRow(run)) == Mul(TotalKey(run), TotalMask(run))
    ensures Sum(VShareRow(run)) == Mul(SecretKey(run), TotalMask(run))
  {
    hide ValidRun, SentEntry, GotEntry, ChiEntry, KeyShareOf, Sum, Exchanges;
    TablesExchange(run, 0);
    TablesExchange(run, 1);
    SharesAddUp(|run.group|, InputRow(run, 0), TotalMask(run), ChiTable(run), SentTable(run, 0), GotTable(run, 0), UShareRow(run));
    SharesAddUp(|run.group|, InputRow(run, 1), TotalMask(run), ChiTable(run), SentTable(run, 1), GotTable(run, 1), VShareRow(run));
    KeySharesTotal(run);
  }

  /** All broadcasts, in the order of the group. */
  ghost function Broadcasts(run: SigningRun): (b: seq<Broadcast3to4>)
    requires ValidRun(run)
    ensures |b| == |run.group|
  {
    seq(|run.group|, a requires 0 <= a < |run.group| => BroadcastOf(run, a))
  }

  lemma BroadcastSums(run: SigningRun)
    requires ValidRun(run)
    ensures Sum(Us(Broadcasts(run))) == Mul(TotalKey(run), TotalMask(run))
    ensures Sum(Ws(Broadcasts(run)))
            == Mul(TotalMask(run), Add(ReduceHash(run.message_hash), Mul(Of(XCoord(run)), SecretKey(run))))
  {
    hide ValidRun, UShare, VShare, Sum;
    var m, r := ReduceHash(run.message_hash), Of(XCoord(run));
    ShareTotals(run);
    assert Us(Broadcasts(run)) == UShareRow(run);
    SumScaled(m, MaskRow(run));
    SumScaled(r, VShareRow(run));
    forall a | 0 <= a < |run.group|
      ensures Ws(Broadcasts(run))[a] == Add(Scaled(m, MaskRow(run))[a], Scaled(r, VShareRow(run))[a])
    {
      Commute(r, VShare(run, a));
    }
    SumAdd(Scaled(m, MaskRow(run)), Scaled(r, VShareRow(run)), Ws(Broadcasts(run)));
    FactorOut(m, TotalMask(run), r, SecretKey(run));
  }

  lemma FactorOut(m: Scalar, f: Scalar, r: Scalar, k: Scalar)
    ensures Add(Mul(m, f), Mul(r, Mul(k, f))) == Mul(f, Add(m, Mul(r, k)))
  {
    var m': int, f': int, r': int, k': int := m, f, r, k;
    OfScalar(m); OfScalar(f); OfScalar(r); OfScalar(k);
    OfMul(m', f'); OfMul(k', f'); OfMul(r', (k' * f')); OfAdd((m' * f'), (r' * (k' * f'))); OfMul(r', k');
    OfAdd(m', (r' * k')); OfMul(f', (m' + (r' * k')));
    assert (m' * f') + (r' * (k' * f')) == f' * (m' + (r' * k'));
  }

  /** For every order in which the broadcasts arrive, phase 4 succeeds just when PassesPhase4 holds, and then with the
      signature of a single signer up to sign. */
  lemma Phase4Honest(run: SigningRun, i: PartyIndex, received: seq<Broadcast3to4>, normalize: bool)
    requires ValidRun(run) && i in run.group && multiset(received) == multiset(Broadcasts(run))
    ensures i in run.ps
    ensures Phase4Outcome(i, run.ps[i].pk, run.message_hash, XCoord(run), received, normalize).Ok? <==> PassesPhase4(run)
    ensures PassesPhase4(run) ==>
      var r := Phase4Outcome(i, run.ps[i].pk, run.message_hash, XCoord(run), received, normalize);
      var s0 := SingleSigner(TotalKey(run), SecretKey(run), ReduceHash(run.message_hash), XCoord(run));
      && r.value.0 == (if normalize && 2 * s0 > Q then Neg(s0) else s0) && UpToSign(r.value.0, s0)
      && IsCandidate(if r.value.0 == s0 then Base(TotalKey(run)) else Minus(Base(TotalKey(run))), XCoord(run), r.value.1)
      && RecoversKey(XCoord(run), r.value.0, r.value.1, ReduceHash(run.message_hash), run.ps[i].pk)
  {
    hide ValidRun, Phase4Outcome, Sum, BroadcastOf, TotalKey, TotalMask, SecretKey;
    PartyFacts(run, i);
    BroadcastSums(run);
    ReceivedSums(received, Broadcasts(run));
    AssemblyDecides(i, SecretKey(run), run.message_hash, TotalKey(run), TotalMask(run), received, normalize);
    if PassesPhase4(run) {
      OfScalar(XCoord(run));
      AssemblyCorrect(i, SecretKey(run), run.message_hash, TotalKey(run), TotalMask(run), received, normalize);
    }
  }

  function UOf(b: Broadcast3to4): Scalar { b.u }

  function WOf(b: Broadcast3to4): Scalar { b.w }

  lemma ReceivedSums(s: seq<Broadcast3to4>, t: seq<Broadcast3to4>)
    requires multiset(s) == multiset(t)
    ensures Sum(Us(s)) == Sum(Us(t)) && Sum(Ws(s)) == Sum(Ws(t))
  {
    hide Sum;
    MappedPermuted(UOf, s, t);
    MappedPermuted(WOf, s, t);
    UsMapped(s);
    UsMapped(t);
    Permuted(Us(s), Us(t));
    Permuted(Ws(s), Ws(t));
  }

  lemma UsMapped(s: seq<Broadcast3to4>)
    ensures Us(s) == Mapped(UOf, s) && Ws(s) == Mapped(WOf, s)
  {
    forall i | 0 <= i < |s| ensures Us(s)[i] == Mapped(UOf, s)[i] && Ws(s)[i] == Mapped(WOf, s)[i] {
      assert UOf(s[i]) == s[i].u && WOf(s[i]) == s[i].w;
    }
  }
}
