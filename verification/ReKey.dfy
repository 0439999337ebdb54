/** Splitting a known secret key among n parties. */
module ReKey {
  import opened Outcomes
  import opened PrimeField
  import opened Sums
  import opened Polynomials
  import opened Hashes
  import opened Curve
  import opened Transpose
  import opened OTExtension
  import opened Multiplication
  import opened Protocols
  import opened ZeroShares
  import opened PartyStates

  /** What the dealer draws for the OT extension of one ordered pair (receiver, sender). */
  datatype SetupDraws = SetupDraws(seeds0: seq<HashOutput>, seeds1: seq<HashOutput>, bits: seq<bool>, gadget: seq<Scalar>)

  predicate IsSetupDraws(d: SetupDraws) {
    |d.seeds0| == |d.seeds1| == |d.bits| == KAPPA && |d.gadget| == BATCH_SIZE
  }

  function SomeSeeds(): seq<HashOutput> {
    seq(KAPPA, _ => seq(SECURITY, _ => 0))
  }

  type ValidSetupDraws = d: SetupDraws | IsSetupDraws(d)
    witness SetupDraws(SomeSeeds(), SomeSeeds(), seq(KAPPA, _ => false), seq(BATCH_SIZE, _ => 0))

  datatype ReKeyDraws = ReKeyDraws(
    coefficients: seq<Scalar>, common: (nat, nat) -> HashOutput, pairs: (nat, nat) -> ValidSetupDraws, chain_code: ChainCode)

  // Zero shares

  /** Row l - 1 of the table holds the seeds of the pairs (l, l + 1), ..., (l, n). */
  ghost predicate SeedRow(row: seq<HashOutput>, n: nat, draws: ReKeyDraws, l: nat) {
    l <= n && |row| == n - l && forall h :: l < h <= n ==> row[h - l - 1] == draws.common(l, h)
  }

  /** The rows 1 to |table|. */
  ghost predicate SeedTable(table: seq<seq<HashOutput>>, n: nat, draws: ReKeyDraws) {
    forall k :: 0 <= k < |table| ==> SeedRow(table[k], n, draws, k + 1)
  }

  /** The triangular table of common seeds. */
  method CommonSeeds(n: nat, draws: ReKeyDraws) returns (common_seeds: seq<seq<HashOutput>>)
    requires 2 <= n <= 255
    ensures |common_seeds| == n - 1 && SeedTable(common_seeds, n, draws)
  {
    common_seeds := [];
    for lower_index := 1 to n
      invariant |common_seeds| == lower_index - 1 && SeedTable(common_seeds, n, draws)
    {
      var seeds_with_lower_index: seq<HashOutput> := [];
      for higher_index := lower_index + 1 to n + 1
        invariant |seeds_with_lower_index| == higher_index - lower_index - 1
        invariant forall h :: lower_index < h < higher_index ==> seeds_with_lower_index[h - lower_index - 1] == draws.common(lower_index, h)
      {
        seeds_with_lower_index := seeds_with_lower_index + [draws.common(lower_index, higher_index)];
      }
      common_seeds := common_seeds + [seeds_with_lower_index];
    }
  }

  /** The k-th seed pair of a party: counterparties in increasing order, the party itself left out. */
  function DealtSeed(draws: ReKeyDraws, party: PartyIndex, k: nat): SeedPair
    requires k < 254
  {
    if k < party - 1 then SeedPair(false, k + 1, draws.common(k + 1, party))
    else SeedPair(true, k + 2, draws.common(party, k + 2))
  }

  method PartySeeds(n: nat, party: PartyIndex, common_seeds: seq<seq<HashOutput>>, draws: ReKeyDraws)
    returns (seeds: seq<SeedPair>)
    requires 2 <= n <= 255 && party <= n && |common_seeds| == n - 1
    requires SeedTable(common_seeds, n, draws)
    ensures |seeds| == n - 1
    ensures forall k :: 0 <= k < n - 1 ==> seeds[k] == DealtSeed(draws, party, k)
  {
    seeds := [];
    if party > 1 {
      for counterparty := 1 to party
        invariant |seeds| == counterparty - 1
        invariant forall k :: 0 <= k < counterparty - 1 ==> seeds[k] == DealtSeed(draws, party, k)
      {
        assert SeedRow(common_seeds[counterparty - 1], n, draws, counterparty);
        seeds := seeds + [SeedPair(false, counterparty, common_seeds[counterparty - 1][party - counterparty - 1])];
      }
    }
    if party < n {
      for counterparty := party + 1 to n + 1
        invariant |seeds| == counterparty - 2
        invariant forall k :: 0 <= k < counterparty - 2 ==> seeds[k] == DealtSeed(draws, party, k)
      {
        assert SeedRow(common_seeds[party - 1], n, draws, party);
        seeds := seeds + [SeedPair(true, counterparty, common_seeds[party - 1][counterparty - party - 1])];
      }
    }
  }

  // Multiplication

  function SelectedSeeds(d: ValidSetupDraws): (s: seq<HashOutput>)
    ensures |s| == KAPPA
  {
    seq(KAPPA, i requires 0 <= i < KAPPA => if d.bits[i] then d.seeds1[i] else d.seeds0[i])
  }

  function DealtReceiver(d: ValidSetupDraws): MulReceiver {
    MulReceiverFields(d.gadget, OTEReceiver(d.seeds0, d.seeds1))
  }

  function DealtSender(d: ValidSetupDraws): MulSender {
    MulSenderFields(d.gadget, OTESender(d.bits, SelectedSeeds(d)))
  }

  method DealPair(d: ValidSetupDraws) returns (receiver: MulReceiver, sender: MulSender)
    ensures receiver == DealtReceiver(d) && sender == DealtSender(d)
  {
    var seeds0: seq<HashOutput>, seeds1: seq<HashOutput> := [], [];
    for i := 0 to KAPPA
      invariant seeds0 == d.seeds0[..i] && seeds1 == d.seeds1[..i]
    {
      seeds0 := seeds0 + [d.seeds0[i]];
      seeds1 := seeds1 + [d.seeds1[i]];
    }
    var correlation: seq<bool>, seeds: seq<HashOutput> := [], [];
    for i := 0 to KAPPA
      invariant correlation == d.bits[..i] && seeds == SelectedSeeds(d)[..i]
    {
      var current_bit := d.bits[i];
      seeds := seeds + [if current_bit then seeds1[i] else seeds0[i]];
      correlation := correlation + [current_bit];
    }
    var public_gadget: seq<Scalar> := [];
    for i := 0 to BATCH_SIZE
      invariant public_gadget == d.gadget[..i]
    {
      public_gadget := public_gadget + [d.gadget[i]];
    }
    receiver := MulReceiverFields(public_gadget, OTEReceiver(seeds0, seeds1));
    sender := MulSenderFields(public_gadget, OTESender(correlation, seeds));
  }

  lemma DealtPaired(d: ValidSetupDraws)
    ensures Paired(DealtSender(d), DealtReceiver(d))
  {}

  /** The pairs dealt before receiver r, sender s, in the order of the two loops. */
  predicate Dealt(r: nat, s: nat, i: nat, j: nat) {
    i != j && (i < r || (i == r && j < s))
  }

  ghost predicate MapsAt(n: nat, draws: ReKeyDraws, receivers: seq<map<PartyIndex, MulReceiver>>,
                         senders: seq<map<PartyIndex, MulSender>>, r: nat, s: nat, i: PartyIndex, j: PartyIndex)
    requires |receivers| == |senders| == n && i <= n && j <= n
  {
    && (j in receivers[i - 1] <==> Dealt(r, s, i, j))
    && (i in senders[j - 1] <==> Dealt(r, s, i, j))
    && (Dealt(r, s, i, j) ==>
         receivers[i - 1][j] == DealtReceiver(draws.pairs(i, j)) && senders[j - 1][i] == DealtSender(draws.pairs(i, j)))
  }

  /** The maps after the pairs before (r, s). */
  ghost predicate MapsFilled(n: nat, draws: ReKeyDraws, receivers: seq<map<PartyIndex, MulReceiver>>,
                             senders: seq<map<PartyIndex, MulSender>>, r: nat, s: nat)
  {
    |receivers| == |senders| == n &&
    forall i: PartyIndex, j: PartyIndex {:trigger MapsAt(n, draws, receivers, senders, r, s, i, j)} :: i <= n && j <= n ==>
      MapsAt(n, draws, receivers, senders, r, s, i, j)
  }

  function Inserted<V>(m: map<PartyIndex, V>, k: PartyIndex, v: V): map<PartyIndex, V> {
    m[k := v]
  }

  method DealMultiplication(n: nat, draws: ReKeyDraws)
    returns (receivers: seq<map<PartyIndex, MulReceiver>>, senders: seq<map<PartyIndex, MulSender>>)
    requires 2 <= n <= 255
    ensures MapsFilled(n, draws, receivers, senders, n + 1, 1)
  {
    receivers := seq(n, _ => map[]);
    senders := seq(n, _ => map[]);
    for receiver := 1 to n + 1
      invariant MapsFilled(n, draws, receivers, senders, receiver, 1)
    {
      for sender := 1 to n + 1
        invariant MapsFilled(n, draws, receivers, senders, receiver, sender)
      {
        hide DealtReceiver, DealtSender;
        if sender == receiver {
          SkipPair(n, draws, receivers, senders, receiver);
          continue;
        }
        var mul_receiver, mul_sender := DealPair(draws.pairs(receiver, sender));
        ghost var before := (receivers, senders);
        receivers := receivers[receiver - 1 := Inserted(receivers[receiver - 1], sender, mul_receiver)];
        senders := senders[sender - 1 := Inserted(senders[sender - 1], receiver, mul_sender)];
        AddPair(n, draws, before.0, before.1, receiver, sender);
      }
      NextReceiver(n, draws, receivers, senders, receiver);
    }
  }

  lemma SkipPair(n: nat, draws: ReKeyDraws, receivers: seq<map<PartyIndex, MulReceiver>>,
                 senders: seq<map<PartyIndex, MulSender>>, r: PartyIndex)
    requires r <= n && MapsFilled(n, draws, receivers, senders, r, r)
    ensures MapsFilled(n, draws, receivers, senders, r, r + 1)
  {
    var s := r + 1;
    forall i: PartyIndex, j: PartyIndex | i <= n && j <= n ensures MapsAt(n, draws, receivers, senders, r, s, i, j) {
      assert MapsAt(n, draws, receivers, senders, r, r, i, j);
    }
  }

  lemma AddPair(n: nat, draws: ReKeyDraws, receivers: seq<map<PartyIndex, MulReceiver>>,
                senders: seq<map<PartyIndex, MulSender>>, r: PartyIndex, s: PartyIndex)
    requires r <= n && s <= n && r != s && MapsFilled(n, draws, receivers, senders, r, s)
    ensures var d := draws.pairs(r, s);
      MapsFilled(n, draws, receivers[r - 1 := Inserted(receivers[r - 1], s, DealtReceiver(d))],
                 senders[s - 1 := Inserted(senders[s - 1], r, DealtSender(d))], r, s + 1)
  {
    hide DealtReceiver, DealtSender;
    var d := draws.pairs(r, s);
    var receivers' := receivers[r - 1 := Inserted(receivers[r - 1], s, DealtReceiver(d))];
    var senders' := senders[s - 1 := Inserted(senders[s - 1], r, DealtSender(d))];
    var s' := s + 1;
    forall i: PartyIndex, j: PartyIndex | i <= n && j <= n ensures MapsAt(n, draws, receivers', senders', r, s', i, j) {
      assert MapsAt(n, draws, receivers, senders, r, s, i, j);
    }
  }

  lemma NextReceiver(n: nat, draws: ReKeyDraws, receivers: seq<map<PartyIndex, MulReceiver>>,
                     senders: seq<map<PartyIndex, MulSender>>, r: nat)
    requires MapsFilled(n, draws, receivers, senders, r, n + 1)
    ensures MapsFilled(n, draws, receivers, senders, r + 1, 1)
  {
    var r' := r + 1;
    forall i: PartyIndex, j: PartyIndex | i <= n && j <= n ensures MapsAt(n, draws, receivers, senders, r', 1, i, j) {
      assert MapsAt(n, draws, receivers, senders, r, n + 1, i, j);
    }
  }

  // Shares

  function Power(x: Scalar, n: nat): Scalar {
    if n == 0 then 1 else Mul(Power(x, n - 1), x)
  }

  lemma {:induction false} EvalAppend(p: seq<Scalar>, c: Scalar, x: Scalar)
    ensures Eval(p + [c], x) == Add(Eval(p, x), Mul(c, Power(x, |p|)))
  {
    if p == [] {
      EvalConstant(c, x);
      Identities(c);
      LeftZero(c);
    } else {
      EvalAppend(p[1..], c, x);
      assert (p + [c])[1..] == p[1..] + [c];
      AppendStep(Eval(p[1..], x), c, Power(x, |p| - 1), x, p[0]);
    }
  }

  lemma AppendStep(e: Scalar, c: Scalar, w: Scalar, x: Scalar, a: Scalar)
    ensures Add(Mul(Add(e, Mul(c, w)), x), a) == Add(Add(Mul(e, x), a), Mul(c, Mul(w, x)))
  {
    var e': int, c': int, w': int, x': int, a': int := e, c, w, x, a;
    OfScalar(e); OfScalar(c); OfScalar(w); OfScalar(x); OfScalar(a);
    OfMul(c', w'); OfAdd(e', (c' * w')); OfMul((e' + (c' * w')), x'); OfAdd(((e' + (c' * w')) * x'), a');
    OfMul(e', x'); OfAdd((e' * x'), a'); OfMul(w', x'); OfMul(c', (w' * x'));
    OfAdd(((e' * x') + a'), (c' * (w' * x')));
    assert ((e' + (c' * w')) * x') + a' == ((e' * x') + a') + (c' * (w' * x'));
  }

  /** The power form of evaluation: the same value as Horner's rule. */
  method EvalByPowers(polynomial: seq<Scalar>, index: PartyIndex) returns (poly_point: Scalar)
    ensures poly_point == Eval(polynomial, index)
  {
    hide Eval;
    poly_point := 0;
    EvalZeros(polynomial[..0], index);
    var power_of_index: Scalar := 1;
    for i := 0 to |polynomial|
      invariant poly_point == Eval(polynomial[..i], index) && power_of_index == Power(index, i)
    {
      EvalAppend(polynomial[..i], polynomial[i], index);
      assert polynomial[..i] + [polynomial[i]] == polynomial[..i + 1];
      poly_point := Add(poly_point, Mul(polynomial[i], power_of_index));
      power_of_index := Mul(power_of_index, index);
    }
    assert polynomial[..|polynomial|] == polynomial;
  }

  // The whole function

  function DealtDerivData(poly_point: Scalar, pk: Point, chain_code: ChainCode): DerivData {
    DerivData(0, 0, [0, 0, 0, 0], poly_point, pk, chain_code)
  }

  /** The parties as a map. */
  function ByIndex(parties: seq<Party>): (m: Parties)
    requires |parties| <= 255
    ensures Complete(m, |parties|)
    ensures forall k :: 0 <= k < |parties| ==> m[k + 1] == parties[k]
  {
    if parties == [] then map[] else ByIndex(parties[..|parties| - 1])[|parties| := parties[|parties| - 1]]
  }

  /** Every party's verifying share is its share in the exponent. */
  ghost predicate VerifyingShares(shares: map<PartyIndex, Point>, ps: Parties) {
    forall i :: (i in shares <==> i in ps) && (i in ps ==> shares[i] == Base(ps[i].poly_point))
  }

  ghost predicate DealtParty(party: Party, i: PartyIndex, parameters: ValidParameters, sid: Bytes, polynomial: seq<Scalar>,
                             chain_code: ChainCode, draws: ReKeyDraws)
  {
    && party.parameters == parameters && party.party_index == i && party.session_id == sid
    && party.poly_point == Eval(polynomial, i) && party.pk == Base(Eval(polynomial, 0))
    && party.derivation_data == DealtDerivData(party.poly_point, party.pk, chain_code)
    && DealtShare(party.zero_share, parameters.share_count, i, draws)
    && DealtMaps(parameters.share_count, i, draws, party.mul_receivers, party.mul_senders)
  }

  ghost predicate DealtShare(share: ZeroShare, n: nat, i: PartyIndex, draws: ReKeyDraws)
    requires 2 <= n <= 255
  {
    |share.seeds| == n - 1 && forall k :: 0 <= k < n - 1 ==> share.seeds[k] == DealtSeed(draws, i, k)
  }

  ghost predicate DealtParties(ps: Parties, parameters: ValidParameters, sid: Bytes, polynomial: seq<Scalar>,
                               chain_code: ChainCode, draws: ReKeyDraws)
  {
    Complete(ps, parameters.share_count) &&
    forall i :: i in ps ==> DealtParty(ps[i], i, parameters, sid, polynomial, chain_code, draws)
  }

  lemma DealtSeedsFound(share: ZeroShare, n: nat, i: PartyIndex, draws: ReKeyDraws)
    requires 2 <= n <= 255 && i <= n && DealtShare(share, n, i, draws)
    ensures UniqueSeeds(share)
    ensures forall j: PartyIndex :: j <= n ==> (HasSeed(share, j) <==> i != j)
    ensures forall j: PartyIndex :: j <= n && j != i ==>
      SeedFor(share, j) == SeedPair(i < j, j, if i < j then draws.common(i, j) else draws.common(j, i))
  {
    forall j: PartyIndex | j <= n
      ensures HasSeed(share, j) <==> i != j
      ensures i != j ==> SeedFor(share, j) == SeedPair(i < j, j, if i < j then draws.common(i, j) else draws.common(j, i))
    {
      if i != j {
        var k := if j < i then j - 1 else j - 2;
        assert share.seeds[k] == DealtSeed(draws, i, k);
        assert HasSeed(share, j);
      }
    }
  }

  lemma DealtPublicData(ps: Parties, parameters: ValidParameters, sid: Bytes, polynomial: seq<Scalar>,
                        chain_code: ChainCode, draws: ReKeyDraws)
    requires DealtParties(ps, parameters, sid, polynomial, chain_code, draws)
    ensures SamePublicData(ps, parameters, Base(Eval(polynomial, 0)), sid, chain_code) && SharesOf(ps, polynomial)
  {
    hide Eval, DealtSeed, DealtReceiver, DealtSender;
    forall i | i in ps
      ensures ps[i].parameters == parameters && ps[i].party_index == i && ps[i].session_id == sid
      ensures ps[i].pk == ps[i].derivation_data.pk == Base(Eval(polynomial, 0)) && ps[i].derivation_data.chain_code == chain_code
      ensures ps[i].poly_point == ps[i].derivation_data.poly_point == Eval(polynomial, i)
    {
      assert DealtParty(ps[i], i, parameters, sid, polynomial, chain_code, draws);
    }
  }

  lemma DealtZeroShares(ps: Parties, parameters: ValidParameters, sid: Bytes, polynomial: seq<Scalar>,
                        chain_code: ChainCode, draws: ReKeyDraws)
    requires DealtParties(ps, parameters, sid, polynomial, chain_code, draws)
    ensures PairwiseSeeds(ZeroSharesOf(ps))
  {
    hide Eval, DealtSeed, DealtMaps, HasSeed, SeedFor, UniqueSeeds, DealtShare;
    var n := parameters.share_count;
    var shares := ZeroSharesOf(ps);
    forall i | i in ps ensures DealtShare(shares[i], n, i, draws) {
      assert DealtParty(ps[i], i, parameters, sid, polynomial, chain_code, draws);
    }
    forall i | i in shares ensures UniqueSeeds(shares[i]) {
      DealtSeedsFound(shares[i], n, i, draws);
    }
    forall i, j | i in shares && j in shares ensures HasSeed(shares[i], j) <==> i != j {
      DealtSeedsFound(shares[i], n, i, draws);
    }
    forall i, j {:trigger SeedFor(shares[i], j)} | i in shares && j in shares && i != j
      ensures Mirrored(SeedFor(shares[i], j), SeedFor(shares[j], i))
    {
      DealtSeedsFound(shares[i], n, i, draws);
      DealtSeedsFound(shares[j], n, j, draws);
    }
  }

  lemma DealtMultiplication(ps: Parties, parameters: ValidParameters, sid: Bytes, polynomial: seq<Scalar>,
                            chain_code: ChainCode, draws: ReKeyDraws)
    requires DealtParties(ps, parameters, sid, polynomial, chain_code, draws)
    ensures AllPaired(ps)
  {
    hide Eval, DealtSeed, DealtReceiver, DealtSender, Paired;
    forall i: PartyIndex, j: PartyIndex | i in ps && j in ps && i != j
      ensures j in ps[i].mul_senders && i in ps[j].mul_receivers && Paired(ps[i].mul_senders[j], ps[j].mul_receivers[i])
    {
      assert DealtParty(ps[i], i, parameters, sid, polynomial, chain_code, draws);
      assert DealtParty(ps[j], j, parameters, sid, polynomial, chain_code, draws);
      assert DealtAt(i, j, draws, ps[i].mul_receivers, ps[i].mul_senders);
      assert DealtAt(j, i, draws, ps[j].mul_receivers, ps[j].mul_senders);
      DealtPaired(draws.pairs(j, i));
    }
  }

  lemma DealtLevel(ps: Parties, parameters: ValidParameters, sid: Bytes, polynomial: seq<Scalar>,
                   chain_code: ChainCode, draws: ReKeyDraws)
    requires DealtParties(ps, parameters, sid, polynomial, chain_code, draws)
    ensures SameLevel(ps, 0)
  {
    hide Eval, DealtShare, DealtMaps;
    forall i | i in ps ensures ps[i].derivation_data.depth == 0 {
      assert DealtParty(ps[i], i, parameters, sid, polynomial, chain_code, draws);
    }
  }

  /** What the dealer hands to party i for party j is what it drew for the two ordered pairs, and derivation starts at the root. */
  lemma DealtAsDrawn(ps: Parties, parameters: ValidParameters, sid: Bytes, polynomial: seq<Scalar>,
                     chain_code: ChainCode, draws: ReKeyDraws, i: PartyIndex, j: PartyIndex)
    requires DealtParties(ps, parameters, sid, polynomial, chain_code, draws) && i in ps && j in ps && i != j
    ensures var (received, sent) := (draws.pairs(i, j), draws.pairs(j, i));
      && j in ps[i].mul_receivers && j in ps[i].mul_senders
      && ps[i].mul_receivers[j] == MulReceiverFields(received.gadget, OTEReceiver(received.seeds0, received.seeds1))
      && ps[i].mul_senders[j].public_gadget == sent.gadget && ps[i].mul_senders[j].ote_sender.correlation == sent.bits
      && |ps[i].mul_senders[j].ote_sender.seeds| == 256
      && (forall k :: 0 <= k < 256 ==>
           ps[i].mul_senders[j].ote_sender.seeds[k] == if sent.bits[k] then sent.seeds1[k] else sent.seeds0[k])
    ensures HasSeed(ps[i].zero_share, j)
    ensures SeedFor(ps[i].zero_share, j) == SeedPair(i < j, j, if i < j then draws.common(i, j) else draws.common(j, i))
    ensures ps[i].derivation_data == DerivData(0, 0, [0, 0, 0, 0], ps[i].poly_point, ps[i].pk, chain_code)
  {
    hide DealtShare, DealtSeed, HasSeed;
    DealtSeedsFound(ps[i].zero_share, parameters.share_count, i, draws);
    assert DealtAt(i, j, draws, ps[i].mul_receivers, ps[i].mul_senders);
  }

  /** What the dealer hands out is consistent. */
  lemma DealtConsistent(ps: Parties, parameters: ValidParameters, sid: Bytes, polynomial: seq<Scalar>,
                        chain_code: ChainCode, draws: ReKeyDraws)
    requires DealtParties(ps, parameters, sid, polynomial, chain_code, draws) && |polynomial| == parameters.threshold
    ensures ConsistentParties(ps, parameters, polynomial, sid, chain_code)
  {
    hide Eval, DealtParty, SamePublicData, SharesOf, PairwiseSeeds, AllPaired;
    DealtPublicData(ps, parameters, sid, polynomial, chain_code, draws);
    DealtZeroShares(ps, parameters, sid, polynomial, chain_code, draws);
    DealtMultiplication(ps, parameters, sid, polynomial, chain_code, draws);
  }

  /** The zero shares of all parties. */
  method DealZeroShares(n: nat, draws: ReKeyDraws) returns (zero_shares: seq<ZeroShare>)
    requires 2 <= n <= 255
    ensures |zero_shares| == n
    ensures forall k :: 0 <= k < n ==> DealtShare(zero_shares[k], n, k + 1, draws)
  {
    var common_seeds := CommonSeeds(n, draws);
    zero_shares := [];
    for party := 1 to n + 1
      invariant |zero_shares| == party - 1
      invariant forall k :: 0 <= k < party - 1 ==> DealtShare(zero_shares[k], n, k + 1, draws)
    {
      var seeds := PartySeeds(n, party, common_seeds, draws);
      zero_shares := zero_shares + [ZeroShare(seeds)];
    }
  }

  /** The loop that assembles the parties. */
  method BuildParties(parameters: ValidParameters, sid: Bytes, polynomial: seq<Scalar>, pk: Point, chain_code: ChainCode,
                      zero_shares: seq<ZeroShare>, receivers: seq<map<PartyIndex, MulReceiver>>,
                      senders: seq<map<PartyIndex, MulSender>>, draws: ReKeyDraws, address_fn: Point -> string)
    returns (parties: seq<Party>)
    requires pk == Base(Eval(polynomial, 0)) && |zero_shares| == parameters.share_count
    requires forall k :: 0 <= k < parameters.share_count ==> DealtShare(zero_shares[k], parameters.share_count, k + 1, draws)
    requires MapsFilled(parameters.share_count, draws, receivers, senders, parameters.share_count + 1, 1)
    ensures |parties| == parameters.share_count
    ensures DealtParties(ByIndex(parties), parameters, sid, polynomial, chain_code, draws)
    ensures forall k :: 0 <= k < |parties| ==> parties[k].address == address_fn(pk)
  {
    hide DealtSeed, DealtReceiver, DealtSender, Eval;
    var n := parameters.share_count;
    parties := [];
    for index := 1 to n + 1
      invariant |parties| == index - 1
      invariant forall k :: 0 <= k < index - 1 ==> DealtParty(parties[k], k + 1, parameters, sid, polynomial, chain_code, draws)
      invariant forall k :: 0 <= k < index - 1 ==> parties[k].address == address_fn(pk)
    {
      var poly_point := EvalByPowers(polynomial, index);
      MapsOf(n, draws, receivers, senders, index);
      var party := Party(parameters, index, sid, poly_point, pk, zero_shares[index - 1], senders[index - 1],
                         receivers[index - 1], DealtDerivData(poly_point, pk, chain_code), address_fn(pk));
      parties := parties + [party];
    }
    hide DealtParty;
    var m := ByIndex(parties);
    forall i | i in m ensures DealtParty(m[i], i, parameters, sid, polynomial, chain_code, draws) {
      var k: int := i - 1;
      assert m[k + 1] == parties[k];
    }
  }

  ghost predicate DealtAt(i: PartyIndex, j: PartyIndex, draws: ReKeyDraws, receivers: map<PartyIndex, MulReceiver>,
                          senders: map<PartyIndex, MulSender>)
  {
    && j in receivers && receivers[j] == DealtReceiver(draws.pairs(i, j))
    && j in senders && senders[j] == DealtSender(draws.pairs(j, i))
  }

  ghost predicate DealtMaps(n: nat, i: PartyIndex, draws: ReKeyDraws, receivers: map<PartyIndex, MulReceiver>,
                            senders: map<PartyIndex, MulSender>)
  {
    forall j: PartyIndex :: j <= n && j != i ==> DealtAt(i, j, draws, receivers, senders)
  }

  lemma MapsOf(n: nat, draws: ReKeyDraws, receivers: seq<map<PartyIndex, MulReceiver>>,
               senders: seq<map<PartyIndex, MulSender>>, i: PartyIndex)
    requires i <= n <= 255 && MapsFilled(n, draws, receivers, senders, n + 1, 1)
    ensures DealtMaps(n, i, draws, receivers[i - 1], senders[i - 1])
  {
    hide DealtReceiver, DealtSender;
    var r := n + 1;
    var rs, ss := receivers[i - 1], senders[i - 1];
    forall j: PartyIndex | j <= n && j != i ensures DealtAt(i, j, draws, rs, ss)
    {
      assert MapsAt(n, draws, receivers, senders, r, 1, i, j);
      assert MapsAt(n, draws, receivers, senders, r, 1, j, i);
      assert Dealt(r, 1, i, j) && Dealt(r, 1, j, i);
    }
  }

  /** re_key: a consistent sharing of the given secret key, with the verifying shares of all parties. */
  method Split(parameters: ValidParameters, sid: Bytes, secret_key: Scalar, option_chain_code: Option<ChainCode>,
               draws: ReKeyDraws, address_fn: Point -> string)
    returns (parties: seq<Party>, package: PublicKeyPackage)
    requires |draws.coefficients| == parameters.threshold - 1
    ensures |parties| == parameters.share_count
    ensures ConsistentParties(ByIndex(parties), parameters, [secret_key] + draws.coefficients, sid,
              if option_chain_code.Some? then option_chain_code.value else draws.chain_code)
    ensures Eval([secret_key] + draws.coefficients, 0) == secret_key && SameLevel(ByIndex(parties), 0)
    ensures package.verifying_key == Base(secret_key) && package.parameters == parameters
    ensures VerifyingShares(package.verifying_shares, ByIndex(parties))
    ensures DealtParties(ByIndex(parties), parameters, sid, [secret_key] + draws.coefficients,
              if option_chain_code.Some? then option_chain_code.value else draws.chain_code, draws)
    ensures forall k :: 0 <= k < |parties| ==> parties[k].address == address_fn(Base(secret_key))
  {
    hide DealtShare, DealtMaps, MapsFilled, Eval, SamePublicData, SharesOf, PairwiseSeeds, AllPaired;
    var n := parameters.share_count;
    var pk := Base(secret_key);
    var polynomial := [secret_key];
    for i := 1 to parameters.threshold
      invariant polynomial == [secret_key] + draws.coefficients[..i - 1]
    {
      polynomial := polynomial + [draws.coefficients[i - 1]];
    }
    assert polynomial == [secret_key] + draws.coefficients;
    EvalAtZero(polynomial);
    var zero_shares := DealZeroShares(n, draws);
    var all_mul_receivers, all_mul_senders := DealMultiplication(n, draws);
    var chain_code := if option_chain_code.Some? then option_chain_code.value else draws.chain_code;
    parties := BuildParties(parameters, sid, polynomial, pk, chain_code, zero_shares, all_mul_receivers, all_mul_senders,
                            draws, address_fn);
    DealtConsistent(ByIndex(parties), parameters, sid, polynomial, chain_code, draws);
    DealtLevel(ByIndex(parties), parameters, sid, polynomial, chain_code, draws);
    var verifying_shares := PublishShares(parties);
    package := PublicKeyPackage(pk, verifying_shares, parameters);
  }

  method PublishShares(parties: seq<Party>) returns (verifying_shares: map<PartyIndex, Point>)
    requires |parties| <= 255 && forall k :: 0 <= k < |parties| ==> parties[k].party_index == k + 1
    ensures VerifyingShares(verifying_shares, ByIndex(parties))
  {
    verifying_shares := map[];
    for k := 0 to |parties|
      invariant forall i: PartyIndex :: i in verifying_shares <==> i <= k
      invariant forall i :: i in verifying_shares ==> verifying_shares[i] == Base(ByIndex(parties)[i].poly_point)
    {
      verifying_shares := verifying_shares[parties[k].party_index := Base(parties[k].poly_point)];
    }
  }
}
