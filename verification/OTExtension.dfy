/** The oblivious transfer extension: the XOR-correlated transfer of KOS with a consistency check,
    followed by the transfer of scalar correlations. */
module OTExtension {
  import opened Outcomes
  import opened PrimeField
  import opened Hashes
  import opened Curve
  import opened OracleTags
  import opened PackedBits
  import opened Transpose
  import opened BinaryField
  import opened Proofs
  import opened BaseOT

  const OT_SECURITY: nat := 208

  datatype OTESender = OTESender(correlation: seq<bool>, seeds: seq<HashOutput>)

  datatype OTEReceiver = OTEReceiver(seeds0: seq<HashOutput>, seeds1: seq<HashOutput>)

  datatype OTEDataToSender = OTEDataToSender(u: seq<PRGOutput>, verify_x: FieldElement, verify_t: seq<FieldElement>)

  datatype OTEError =
    | WrongCorrelationCount | WrongInnerLength | WrongState | WrongData
    | ConsistencyCheckFailed | WrongChoiceBits | WrongExtendedSeeds | WrongTau

  /** Seed i of the sender is the one of the receiver's two seeds that correlation bit i selects. */
  predicate Matching(sender: OTESender, receiver: OTEReceiver) {
    && |sender.correlation| == |sender.seeds| == |receiver.seeds0| == |receiver.seeds1| == KAPPA
    && forall i :: 0 <= i < KAPPA ==>
         sender.seeds[i] == if sender.correlation[i] then receiver.seeds1[i] else receiver.seeds0[i]
  }

  // Initialization: base OTs with the roles reversed

  /** OTESender::init_phase2 */
  method InitSender(sid: Bytes, correlation: seq<bool>, vec_r: seq<Scalar>, dlog_proof: DLogProof)
    returns (r: Result<OTESender, OTError>)
    ensures r == SenderOf(sid, correlation, vec_r, dlog_proof)
  {
    var seeds := ReceiverPhase2Batch(sid, vec_r, dlog_proof);
    r := if seeds.Err? then Err(seeds.error) else Ok(OTESender(correlation, seeds.value));
  }

  ghost function SenderOf(sid: Bytes, correlation: seq<bool>, vec_r: seq<Scalar>, dlog_proof: DLogProof)
    : Result<OTESender, OTError>
  {
    var seeds := ReceiverBatch(sid, vec_r, dlog_proof);
    if seeds.Err? then Err(seeds.error) else Ok(OTESender(correlation, seeds.value))
  }

  /** OTEReceiver::init_phase2 */
  method InitReceiver(s: Scalar, sid: Bytes, seed: Seed, proofs: seq<EncProof>) returns (r: Result<OTEReceiver, OTError>)
    ensures r == ReceiverOf(s, sid, seed, proofs)
  {
    var seeds := SenderPhase2Batch(s, sid, seed, proofs);
    r := if seeds.Err? then Err(seeds.error) else Ok(OTEReceiver(seeds.value.0, seeds.value.1));
  }

  function ReceiverOf(s: Scalar, sid: Bytes, seed: Seed, proofs: seq<EncProof>): Result<OTEReceiver, OTError> {
    var seeds := SenderBatch(s, sid, seed, proofs);
    if seeds.Err? then Err(seeds.error) else Ok(OTEReceiver(seeds.value.0, seeds.value.1))
  }

  /** Honest initialization gives matching seeds. */
  lemma InitMatching(s: Scalar, sid: Bytes, seed: Seed, correlation: seq<bool>, draws: seq<ReceiverDraw>, dlog_proof: DLogProof)
    requires |draws| == |correlation| == KAPPA
    requires dlog_proof.point == Base(s) && DLogAccepts(dlog_proof, sid)
    ensures var sender := SenderOf(sid, correlation, Nonces(draws), dlog_proof);
      var receiver := ReceiverOf(s, sid, seed, ReceiverProofs(seed, sid, correlation, draws));
      sender.Ok? && receiver.Ok? && Matching(sender.value, receiver.value)
  {
    hide DLogAccepts, ReceiverProofs, SenderBatch, ReceiverBatch;
    BatchCorrect(s, sid, seed, correlation, draws, dlog_proof);
  }

  // The pseudo-random generator

  function Chunk(sid: Bytes, i: nat, count: nat, seed: HashOutput): HashOutput {
    TaggedHash(TAG_OTE_PRG, [sid, BigEndian(i, 2), BigEndian(count, 2), seed])
  }

  function Chunks(sid: Bytes, i: nat, count: nat, seed: HashOutput): (b: Bytes)
    ensures |b| == SECURITY * count
  {
    if count == 0 then [] else Chunks(sid, i, count - 1, seed) + Chunk(sid, i, count - 1, seed)
  }

  function Prg(sid: Bytes, i: nat, seed: HashOutput): PRGOutput {
    Chunks(sid, i, 3, seed)[..EXTENDED_BATCH_SIZE / 8]
  }

  method ExpandSeed(sid: Bytes, i: nat, seed: HashOutput) returns (output: PRGOutput)
    ensures output == Prg(sid, i, seed)
  {
    hide Chunk;
    var prg: Bytes := [];
    var count := 0;
    while |prg| < EXTENDED_BATCH_SIZE / 8
      invariant count <= 3 && prg == Chunks(sid, i, count, seed)
    {
      prg := prg + Chunk(sid, i, count, seed);
      count := count + 1;
    }
    output := prg[..EXTENDED_BATCH_SIZE / 8];
  }

  function Expanded(sid: Bytes, seeds: seq<HashOutput>): (e: seq<PRGOutput>)
    ensures |e| == |seeds|
  {
    seq(|seeds|, i requires 0 <= i < |seeds| => Prg(sid, i, seeds[i]))
  }

  method ExpandSeeds(sid: Bytes, seeds: seq<HashOutput>) returns (extended: seq<PRGOutput>)
    ensures extended == Expanded(sid, seeds)
  {
    hide Prg;
    extended := [];
    for i := 0 to |seeds|
      invariant |extended| == i
      invariant forall k :: 0 <= k < i ==> extended[k] == Prg(sid, k, seeds[k])
    {
      var prg := ExpandSeed(sid, i, seeds[i]);
      extended := extended + [prg];
    }
  }

  /** Bits in compressed form: eight to a byte, bit i of the list at bit i % 8 of byte i / 8. */
  method Compress(bits: seq<bool>) returns (c: Bytes)
    requires |bits| % 8 == 0
    ensures |c| == |bits| / 8 && forall i :: 0 <= i < |bits| ==> RowBit(c, i) == bits[i]
    ensures c == Pack(bits)
  {
    hide PackByte;
    c := [];
    for i := 0 to |bits| / 8
      invariant |c| == i
      invariant forall m :: 0 <= m < i ==> c[m] == PackByte(bits[8 * m..8 * m + 8])
    {
      c := c + [PackByte(bits[8 * i..8 * i + 8])];
    }
    assert c == Pack(bits);
    forall i | 0 <= i < |bits| ensures RowBit(c, i) == bits[i] {
      PackRowBit(bits, i);
    }
  }

  // The consistency check

  function Concat(rows: seq<PRGOutput>): Bytes {
    if rows == [] then [] else rows[0] + Concat(rows[1..])
  }

  /** The pseudo-random weights of the check, derived from the matrix u. */
  function Chi(sid: Bytes, name: string, u: seq<PRGOutput>): FieldElement {
    TaggedHash(TAG_OTE_CHI, [sid, Ascii(name), Concat(u)])[..26]
  }

  /** row_1 * chi1 + row_2 * chi2 + row_3, where row_1, row_2, row_3 are the thirds of the row. */
  ghost function Weighted(row: PRGOutput, chi1: FieldElement, chi2: FieldElement): FieldElement {
    XorBytes(XorBytes(FieldProduct(row[..26], chi1), FieldProduct(row[26..52], chi2)), row[52..78])
  }

  method WeightedOf(row: PRGOutput, chi1: FieldElement, chi2: FieldElement) returns (w: FieldElement)
    ensures w == Weighted(row, chi1, chi2)
  {
    hide FieldProduct, XorBytes;
    var prod_1 := Multiply(row[..26], chi1);
    var prod_2 := Multiply(row[26..52], chi2);
    w := XorBytes(XorBytes(prod_1.value, prod_2.value), row[52..78]);
  }

  ghost function AllWeighted(rows: seq<PRGOutput>, chi1: FieldElement, chi2: FieldElement): (w: seq<FieldElement>)
    ensures |w| == |rows|
  {
    seq(|rows|, i requires 0 <= i < |rows| => Weighted(rows[i], chi1, chi2))
  }

  method WeighAll(rows: seq<PRGOutput>, chi1: FieldElement, chi2: FieldElement) returns (weighted: seq<FieldElement>)
    ensures weighted == AllWeighted(rows, chi1, chi2)
  {
    hide Weighted;
    weighted := [];
    for i := 0 to |rows|
      invariant |weighted| == i
      invariant forall k :: 0 <= k < i ==> weighted[k] == Weighted(rows[k], chi1, chi2)
    {
      var w := WeightedOf(rows[i], chi1, chi2);
      weighted := weighted + [w];
    }
  }

  lemma WeightedXor(a: PRGOutput, b: PRGOutput, chi1: FieldElement, chi2: FieldElement)
    ensures Weighted(XorBytes(a, b), chi1, chi2) == XorBytes(Weighted(a, chi1, chi2), Weighted(b, chi1, chi2))
  {
    hide FieldProduct, XorByte;
    var c := XorBytes(a, b);
    assert c[..26] == XorBytes(a[..26], b[..26]) && c[26..52] == XorBytes(a[26..52], b[26..52]);
    assert c[52..78] == XorBytes(a[52..78], b[52..78]);
    WeightedParts(a, b, c, chi1, chi2);
  }

  lemma WeightedParts(a: PRGOutput, b: PRGOutput, c: PRGOutput, chi1: FieldElement, chi2: FieldElement)
    requires c[..26] == XorBytes(a[..26], b[..26]) && c[26..52] == XorBytes(a[26..52], b[26..52])
    requires c[52..78] == XorBytes(a[52..78], b[52..78])
    ensures Weighted(c, chi1, chi2) == XorBytes(Weighted(a, chi1, chi2), Weighted(b, chi1, chi2))
  {
    hide FieldProduct, XorBytes;
    ProductXor(a[..26], b[..26], chi1);
    ProductXor(a[26..52], b[26..52], chi2);
    XorRegroup(FieldProduct(a[..26], chi1), FieldProduct(b[..26], chi1),
               FieldProduct(a[26..52], chi2), FieldProduct(b[26..52], chi2));
    XorRegroup(XorBytes(FieldProduct(a[..26], chi1), FieldProduct(a[26..52], chi2)),
               XorBytes(FieldProduct(b[..26], chi1), FieldProduct(b[26..52], chi2)), a[52..78], b[52..78]);
  }

  lemma WeightedMask(on: bool, a: PRGOutput, chi1: FieldElement, chi2: FieldElement)
    ensures Weighted(Mask(on, a), chi1, chi2) == Mask(on, Weighted(a, chi1, chi2))
  {
    hide FieldProduct, MaskByte, XorByte;
    var m := Mask(on, a);
    assert m[..26] == Mask(on, a[..26]) && m[26..52] == Mask(on, a[26..52]) && m[52..78] == Mask(on, a[52..78]);
    ProductMask(on, a[..26], chi1);
    ProductMask(on, a[26..52], chi2);
    MaskXor(on, FieldProduct(a[..26], chi1), FieldProduct(a[26..52], chi2));
    MaskXor(on, XorBytes(FieldProduct(a[..26], chi1), FieldProduct(a[26..52], chi2)), a[52..78]);
  }

  lemma MaskXor(on: bool, a: Bytes, b: Bytes)
    requires |a| == |b|
    ensures Mask(on, XorBytes(a, b)) == XorBytes(Mask(on, a), Mask(on, b))
  {
    forall i | 0 <= i < |a| ensures MaskByte(on, XorByte(a[i], b[i])) == XorByte(MaskByte(on, a[i]), MaskByte(on, b[i])) {
      MaskXorByte(on, a[i], b[i]);
    }
  }

  lemma MaskXorByte(on: bool, x: bv8, y: bv8)
    ensures MaskByte(on, XorByte(x, y)) == XorByte(MaskByte(on, x), MaskByte(on, y))
  {
    hide MaskByte;
    MaskByteValue(on, x);
    MaskByteValue(on, y);
    MaskByteValue(on, XorByte(x, y));
  }

  // Sender

  /** Row i of the matrix q. */
  function QRow(on: bool, u: PRGOutput, extended: PRGOutput): PRGOutput {
    XorBytes(Mask(on, u), extended)
  }

  function QMatrix(sender: OTESender, sid: Bytes, u: seq<PRGOutput>): (q: seq<PRGOutput>)
    requires |sender.correlation| == |sender.seeds| == |u| == KAPPA
    ensures |q| == KAPPA
  {
    seq(KAPPA, i requires 0 <= i < KAPPA => QRow(sender.correlation[i], u[i], Prg(sid, i, sender.seeds[i])))
  }

  /** The sender's consistency check. */
  ghost predicate Consistent(sender: OTESender, sid: Bytes, data: OTEDataToSender)
    requires |sender.correlation| == |sender.seeds| == |data.u| == |data.verify_t| == KAPPA
  {
    var chi1, chi2 := Chi(sid, "chi1", data.u), Chi(sid, "chi2", data.u);
    forall i :: 0 <= i < KAPPA ==>
      Weighted(QMatrix(sender, sid, data.u)[i], chi1, chi2)
      == XorBytes(data.verify_t[i], Mask(sender.correlation[i], data.verify_x))
  }

  method CheckConsistency(sender: OTESender, sid: Bytes, data: OTEDataToSender, q: seq<PRGOutput>) returns (consistent: bool)
    requires |sender.correlation| == |sender.seeds| == |data.u| == |data.verify_t| == KAPPA
    requires q == QMatrix(sender, sid, data.u)
    ensures consistent == Consistent(sender, sid, data)
  {
    hide Chi, Weighted, QMatrix;
    var chi1, chi2 := Chi(sid, "chi1", data.u), Chi(sid, "chi2", data.u);
    var verify_q := WeighAll(q, chi1, chi2);
    var verify_sender: seq<FieldElement> := [];
    for i := 0 to KAPPA
      invariant |verify_sender| == i
      invariant forall k :: 0 <= k < i ==> verify_sender[k] == XorBytes(data.verify_t[k], Mask(sender.correlation[k], data.verify_x))
    {
      verify_sender := verify_sender + [XorBytes(data.verify_t[i], Mask(sender.correlation[i], data.verify_x))];
    }
    consistent := true;
    for i := 0 to KAPPA
      invariant consistent == forall k :: 0 <= k < i ==> verify_q[k] == verify_sender[k]
    {
      consistent := consistent && verify_q[i] == verify_sender[i];
    }
  }

  /** The transpose of the first BATCH_SIZE columns. */
  function Transposed(input: seq<PRGOutput>): (out: seq<HashOutput>)
    requires |input| == KAPPA
    ensures |out| == BATCH_SIZE
  {
    seq(BATCH_SIZE, j requires 0 <= j < BATCH_SIZE => Column(input, j))
  }

  function Column(input: seq<PRGOutput>, j: nat): HashOutput
    requires |input| == KAPPA && j < BATCH_SIZE
  {
    Pack(seq(KAPPA, i requires 0 <= i < KAPPA => RowBit(input[i], j)))
  }

  lemma ColumnBit(input: seq<PRGOutput>, j: nat, i: nat)
    requires |input| == KAPPA && j < BATCH_SIZE && i < KAPPA
    ensures RowBit(Column(input, j), i) == RowBit(input[i], j)
  {
    hide RowBit, Pack;
    PackRowBit(seq(KAPPA, i requires 0 <= i < KAPPA => RowBit(input[i], j)), i);
  }

  lemma TransposeUnique(input: seq<PRGOutput>, out: seq<HashOutput>)
    requires IsTranspose(input, out)
    ensures out == Transposed(input)
  {
    hide RowBit, Column;
    forall j | 0 <= j < BATCH_SIZE ensures out[j] == Column(input, j) {
      forall i | 0 <= i < KAPPA ensures RowBit(out[j], i) == RowBit(Column(input, j), i) {
        ColumnBit(input, j, i);
      }
      SameRow(out[j], Column(input, j));
    }
  }

  function Randomize(sid: Bytes, j: nat, iteration: nat, row: HashOutput): Scalar {
    TaggedScalar(TAG_OTE_RANDOMIZE, [sid, BigEndian(j, 2), BigEndian(iteration, 1), row])
  }

  function Randomized(sid: Bytes, iteration: nat, rows: seq<HashOutput>): (v: seq<Scalar>)
    ensures |v| == |rows|
  {
    seq(|rows|, j requires 0 <= j < |rows| => Randomize(sid, j, iteration, rows[j]))
  }

  method RandomizeRows(sid: Bytes, iteration: nat, rows: seq<HashOutput>) returns (v: seq<Scalar>)
    ensures v == Randomized(sid, iteration, rows)
  {
    hide Randomize;
    v := [];
    for j := 0 to |rows|
      invariant |v| == j
      invariant forall k :: 0 <= k < j ==> v[k] == Randomize(sid, k, iteration, rows[k])
    {
      v := v + [Randomize(sid, j, iteration, rows[j])];
    }
  }

  function ShiftRows(rows: seq<HashOutput>, correlation: HashOutput): (shifted: seq<HashOutput>)
    ensures |shifted| == |rows|
  {
    seq(|rows|, j requires 0 <= j < |rows| => XorBytes(rows[j], correlation))
  }

  /** tau = v1 - v0 + input correlation */
  function TauOf(v0: seq<Scalar>, v1: seq<Scalar>, input: seq<Scalar>): (tau: seq<Scalar>)
    requires |v0| == |v1| == |input|
    ensures |tau| == |v0|
  {
    seq(|v0|, j requires 0 <= j < |v0| => Add(Sub(v1[j], v0[j]), input[j]))
  }

  method ComputeTau(v0: seq<Scalar>, v1: seq<Scalar>, input: seq<Scalar>) returns (tau: seq<Scalar>)
    requires |v0| == |v1| == |input|
    ensures tau == TauOf(v0, v1, input)
  {
    tau := [];
    for j := 0 to |v0|
      invariant |tau| == j
      invariant forall k :: 0 <= k < j ==> tau[k] == Add(Sub(v1[k], v0[k]), input[k])
    {
      tau := tau + [Add(Sub(v1[j], v0[j]), input[j])];
    }
  }

  type Outputs = seq<seq<Scalar>>

  predicate InnerLengths(v: Outputs) {
    forall i :: 0 <= i < |v| ==> |v[i]| == BATCH_SIZE
  }

  method CheckInnerLengths(v: Outputs) returns (fits: bool)
    ensures fits == InnerLengths(v)
  {
    for i := 0 to |v|
      invariant forall k :: 0 <= k < i ==> |v[k]| == BATCH_SIZE
    {
      if |v[i]| != BATCH_SIZE {
        return false;
      }
    }
    return true;
  }

  /** The sender's messages v0 and tau for all iterations, given the transpose of q. */
  function SenderOutput(sid: Bytes, rows: seq<HashOutput>, correlation: HashOutput, inputs: Outputs): (r: (Outputs, Outputs))
    requires |rows| == BATCH_SIZE && InnerLengths(inputs)
    ensures |r.0| == |r.1| == |inputs| && InnerLengths(r.0) && InnerLengths(r.1)
  {
    (seq(|inputs|, i requires 0 <= i < |inputs| => Randomized(sid, i, rows)),
     seq(|inputs|, i requires 0 <= i < |inputs| => TauRow(sid, rows, correlation, inputs[i], i)))
  }

  function TauRow(sid: Bytes, rows: seq<HashOutput>, correlation: HashOutput, input: seq<Scalar>, i: nat): seq<Scalar>
    requires |rows| == |input|
  {
    TauOf(Randomized(sid, i, rows), Randomized(sid, i, ShiftRows(rows, correlation)), input)
  }

  /** What OTESender::run returns. */
  ghost function SenderRun(sender: OTESender, sid: Bytes, ot_width: nat, inputs: Outputs, data: OTEDataToSender)
    : (r: Result<(Outputs, Outputs), OTEError>)
    ensures r.Ok? ==> |r.value.0| == |r.value.1| == ot_width && InnerLengths(r.value.0) && InnerLengths(r.value.1)
  {
    if |inputs| != ot_width then Err(WrongCorrelationCount)
    else if !InnerLengths(inputs) then Err(WrongInnerLength)
    else if |sender.correlation| != KAPPA || |sender.seeds| != KAPPA then Err(WrongState)
    else if |data.u| != KAPPA || |data.verify_t| != KAPPA then Err(WrongData)
    else if !Consistent(sender, sid, data) then Err(ConsistencyCheckFailed)
    else Ok(SenderOutput(sid, Transposed(QMatrix(sender, sid, data.u)), Pack(sender.correlation), inputs))
  }

  /** OTESender::run */
  method RunSender(sender: OTESender, sid: Bytes, ot_width: nat, inputs: Outputs, data: OTEDataToSender)
    returns (r: Result<(Outputs, Outputs), OTEError>)
    ensures r == SenderRun(sender, sid, ot_width, inputs, data)
  {
    hide QRow, Prg, Consistent, Transposed, SenderOutput;
    if |inputs| != ot_width {
      return Err(WrongCorrelationCount);
    }
    var fits := CheckInnerLengths(inputs);
    if !fits {
      return Err(WrongInnerLength);
    }
    if |sender.correlation| != KAPPA || |sender.seeds| != KAPPA {
      return Err(WrongState);
    }
    if |data.u| != KAPPA || |data.verify_t| != KAPPA {
      return Err(WrongData);
    }
    var extended := ExpandSeeds(sid, sender.seeds);
    var q: seq<PRGOutput> := [];
    for i := 0 to KAPPA
      invariant |q| == i
      invariant forall k :: 0 <= k < i ==> q[k] == QRow(sender.correlation[k], data.u[k], extended[k])
    {
      q := q + [QRow(sender.correlation[i], data.u[i], extended[i])];
    }
    var consistent := CheckConsistency(sender, sid, data, q);
    if !consistent {
      return Err(ConsistencyCheckFailed);
    }
    var transposed_q := CutAndTranspose(q);
    TransposeUnique(q, transposed_q.value);
    var compressed_correlation := Compress(sender.correlation);
    var output := RandomizeSender(sid, transposed_q.value, compressed_correlation, inputs);
    return Ok(output);
  }

  method RandomizeSender(sid: Bytes, rows: seq<HashOutput>, correlation: HashOutput, inputs: Outputs)
    returns (r: (Outputs, Outputs))
    requires |rows| == BATCH_SIZE && InnerLengths(inputs)
    ensures r == SenderOutput(sid, rows, correlation, inputs)
  {
    hide Randomized, ShiftRows;
    var vector_of_v0: Outputs, vector_of_v1: Outputs, vector_of_tau: Outputs := [], [], [];
    for i := 0 to |inputs|
      invariant |vector_of_v0| == |vector_of_v1| == i
      invariant forall k :: 0 <= k < i ==>
        vector_of_v0[k] == Randomized(sid, k, rows) && vector_of_v1[k] == Randomized(sid, k, ShiftRows(rows, correlation))
    {
      var v0 := RandomizeRows(sid, i, rows);
      var v1 := RandomizeRows(sid, i, ShiftRows(rows, correlation));
      vector_of_v0 := vector_of_v0 + [v0];
      vector_of_v1 := vector_of_v1 + [v1];
    }
    for i := 0 to |inputs|
      invariant |vector_of_tau| == i
      invariant forall k :: 0 <= k < i ==> vector_of_tau[k] == TauRow(sid, rows, correlation, inputs[k], k)
    {
      var tau := ComputeTau(vector_of_v0[i], vector_of_v1[i], inputs[i]);
      vector_of_tau := vector_of_tau + [tau];
    }
    r := (vector_of_v0, vector_of_tau);
    assert r.0 == SenderOutput(sid, rows, correlation, inputs).0;
    assert r.1 == SenderOutput(sid, rows, correlation, inputs).1;
  }

  // Receiver

  /** Row i of the matrix u. */
  function URow(extended0: PRGOutput, extended1: PRGOutput, choices: PRGOutput): PRGOutput {
    XorBytes(XorBytes(extended0, extended1), choices)
  }

  function UMatrix(sid: Bytes, receiver: OTEReceiver, choices: PRGOutput): (u: seq<PRGOutput>)
    requires |receiver.seeds0| == |receiver.seeds1| == KAPPA
    ensures |u| == KAPPA
  {
    seq(KAPPA, i requires 0 <= i < KAPPA =>
      URow(Prg(sid, i, receiver.seeds0[i]), Prg(sid, i, receiver.seeds1[i]), choices))
  }

  ghost function ReceiverData(sid: Bytes, receiver: OTEReceiver, choices: PRGOutput): OTEDataToSender
    requires |receiver.seeds0| == |receiver.seeds1| == KAPPA
  {
    var u := UMatrix(sid, receiver, choices);
    var chi1, chi2 := Chi(sid, "chi1", u), Chi(sid, "chi2", u);
    OTEDataToSender(u, Weighted(choices, chi1, chi2), AllWeighted(Expanded(sid, receiver.seeds0), chi1, chi2))
  }

  /** What OTEReceiver::run_phase1 returns when it draws the given noise bits. */
  ghost function ReceiverRun1(receiver: OTEReceiver, sid: Bytes, choice_bits: seq<bool>, noise: seq<bool>)
    : (r: Result<(seq<PRGOutput>, OTEDataToSender), OTEError>)
    requires |noise| == OT_SECURITY
    ensures r.Ok? <==> |choice_bits| == BATCH_SIZE && |receiver.seeds0| == |receiver.seeds1| == KAPPA
    ensures r.Ok? ==> |r.value.0| == KAPPA
  {
    if |choice_bits| != BATCH_SIZE then Err(WrongChoiceBits)
    else if |receiver.seeds0| != KAPPA || |receiver.seeds1| != KAPPA then Err(WrongState)
    else Ok((Expanded(sid, receiver.seeds0), ReceiverData(sid, receiver, Pack(choice_bits + noise))))
  }

  /** OTEReceiver::run_phase1 */
  method RunReceiver1(receiver: OTEReceiver, sid: Bytes, choice_bits: seq<bool>, noise: seq<bool>)
    returns (r: Result<(seq<PRGOutput>, OTEDataToSender), OTEError>)
    requires |noise| == OT_SECURITY
    ensures r == ReceiverRun1(receiver, sid, choice_bits, noise)
  {
    hide URow, Prg, Chi, Weighted;
    if |choice_bits| != BATCH_SIZE {
      return Err(WrongChoiceBits);
    }
    if |receiver.seeds0| != KAPPA || |receiver.seeds1| != KAPPA {
      return Err(WrongState);
    }
    var compressed := Compress(choice_bits + noise);
    var extended_seeds0 := ExpandSeeds(sid, receiver.seeds0);
    var extended_seeds1 := ExpandSeeds(sid, receiver.seeds1);
    var u: seq<PRGOutput> := [];
    for i := 0 to KAPPA
      invariant |u| == i
      invariant forall k :: 0 <= k < i ==> u[k] == URow(extended_seeds0[k], extended_seeds1[k], compressed)
    {
      u := u + [URow(extended_seeds0[i], extended_seeds1[i], compressed)];
    }
    assert u == UMatrix(sid, receiver, compressed);
    var chi1, chi2 := Chi(sid, "chi1", u), Chi(sid, "chi2", u);
    var verify_x := WeightedOf(compressed, chi1, chi2);
    var verify_t := WeighAll(extended_seeds0, chi1, chi2);
    return Ok((extended_seeds0, OTEDataToSender(u, verify_x, verify_t)));
  }

  /** -v, plus tau where the choice bit is set. */
  function Chosen(v: seq<Scalar>, tau: seq<Scalar>, choice_bits: seq<bool>): (t: seq<Scalar>)
    requires |v| == |tau| == |choice_bits|
    ensures |t| == |v|
  {
    seq(|v|, j requires 0 <= j < |v| => if choice_bits[j] then Add(tau[j], Neg(v[j])) else Neg(v[j]))
  }

  method ComputeChosen(v: seq<Scalar>, tau: seq<Scalar>, choice_bits: seq<bool>) returns (t_b: seq<Scalar>)
    requires |v| == |tau| == |choice_bits|
    ensures t_b == Chosen(v, tau, choice_bits)
  {
    t_b := [];
    for j := 0 to |v|
      invariant |t_b| == j
      invariant forall k :: 0 <= k < j ==> t_b[k] == if choice_bits[k] then Add(tau[k], Neg(v[k])) else Neg(v[k])
    {
      var t_b_j := Neg(v[j]);
      if choice_bits[j] {
        t_b_j := Add(tau[j], t_b_j);
      }
      t_b := t_b + [t_b_j];
    }
  }

  function ReceiverOutput(sid: Bytes, choice_bits: seq<bool>, rows: seq<HashOutput>, taus: Outputs): (r: Outputs)
    requires |rows| == |choice_bits| == BATCH_SIZE && InnerLengths(taus)
    ensures |r| == |taus| && InnerLengths(r)
  {
    seq(|taus|, i requires 0 <= i < |taus| => Chosen(Randomized(sid, i, rows), taus[i], choice_bits))
  }

  /** What OTEReceiver::run_phase2 returns. */
  function ReceiverRun2(sid: Bytes, ot_width: nat, choice_bits: seq<bool>, extended_seeds: seq<PRGOutput>, taus: Outputs)
    : (r: Result<Outputs, OTEError>)
    ensures r.Ok? ==> |choice_bits| == BATCH_SIZE && |r.value| == ot_width && InnerLengths(r.value)
  {
    if |choice_bits| != BATCH_SIZE then Err(WrongChoiceBits)
    else if |extended_seeds| != KAPPA then Err(WrongExtendedSeeds)
    else if |taus| != ot_width then Err(WrongTau)
    else if !InnerLengths(taus) then Err(WrongInnerLength)
    else Ok(ReceiverOutput(sid, choice_bits, Transposed(extended_seeds), taus))
  }

  /** OTEReceiver::run_phase2 */
  method RunReceiver2(sid: Bytes, ot_width: nat, choice_bits: seq<bool>, extended_seeds: seq<PRGOutput>, taus: Outputs)
    returns (r: Result<Outputs, OTEError>)
    ensures r == ReceiverRun2(sid, ot_width, choice_bits, extended_seeds, taus)
  {
    hide Randomized, Transposed;
    if |choice_bits| != BATCH_SIZE {
      return Err(WrongChoiceBits);
    }
    if |extended_seeds| != KAPPA {
      return Err(WrongExtendedSeeds);
    }
    if |taus| != ot_width {
      return Err(WrongTau);
    }
    var fits := CheckInnerLengths(taus);
    if !fits {
      return Err(WrongInnerLength);
    }
    var transposed_t := CutAndTranspose(extended_seeds);
    TransposeUnique(extended_seeds, transposed_t.value);
    var vector_of_v: Outputs, vector_of_t_b: Outputs := [], [];
    for i := 0 to ot_width
      invariant |vector_of_v| == i
      invariant forall k :: 0 <= k < i ==> vector_of_v[k] == Randomized(sid, k, transposed_t.value)
    {
      var v := RandomizeRows(sid, i, transposed_t.value);
      vector_of_v := vector_of_v + [v];
    }
    for i := 0 to ot_width
      invariant |vector_of_t_b| == i
      invariant forall k :: 0 <= k < i ==>
        vector_of_t_b[k] == Chosen(Randomized(sid, k, transposed_t.value), taus[k], choice_bits)
    {
      var t_b := ComputeChosen(vector_of_v[i], taus[i], choice_bits);
      vector_of_t_b := vector_of_t_b + [t_b];
    }
    assert vector_of_t_b == ReceiverOutput(sid, choice_bits, transposed_t.value, taus);
    return Ok(vector_of_t_b);
  }

  // Correctness

  /** With matching seeds, row i of q is the receiver's row shifted by correlation_i * choices. */
  lemma QRowRelation(on: bool, extended0: PRGOutput, extended1: PRGOutput, choices: PRGOutput)
    ensures QRow(on, URow(extended0, extended1, choices), if on then extended1 else extended0)
            == XorBytes(extended0, Mask(on, choices))
  {
    forall j | 0 <= j < 78
      ensures XorByte(MaskByte(on, XorByte(XorByte(extended0[j], extended1[j]), choices[j])), if on then extended1[j] else extended0[j])
              == XorByte(extended0[j], MaskByte(on, choices[j]))
    {
      QByteRelation(on, extended0[j], extended1[j], choices[j]);
    }
  }

  lemma QByteRelation(on: bool, x: bv8, y: bv8, c: bv8)
    ensures XorByte(MaskByte(on, XorByte(XorByte(x, y), c)), if on then y else x) == XorByte(x, MaskByte(on, c))
  {
    hide MaskByte, XorByte;
    MaskByteValue(on, c);
    MaskByteValue(on, XorByte(XorByte(x, y), c));
    XorCancels(x, y, c);
  }

  lemma XorCancels(x: bv8, y: bv8, c: bv8)
    ensures XorByte(XorByte(XorByte(x, y), c), y) == XorByte(x, c)
    ensures XorByte(0, x) == XorByte(x, 0)
  {}

  /** Row i of q is row i of the receiver's matrix shifted by correlation_i * choices. */
  ghost predicate Shifted(q: seq<PRGOutput>, t: seq<PRGOutput>, correlation: seq<bool>, choices: PRGOutput) {
    && |q| == |t| == |correlation| == KAPPA
    && forall i :: 0 <= i < KAPPA ==> q[i] == XorBytes(t[i], Mask(correlation[i], choices))
  }

  lemma QMatrixRelation(sender: OTESender, receiver: OTEReceiver, sid: Bytes, choices: PRGOutput)
    requires Matching(sender, receiver)
    ensures Shifted(QMatrix(sender, sid, UMatrix(sid, receiver, choices)), Expanded(sid, receiver.seeds0),
                    sender.correlation, choices)
  {
    hide QRow, URow, Prg, XorBytes, Mask;
    forall i | 0 <= i < KAPPA
      ensures QRow(sender.correlation[i], UMatrix(sid, receiver, choices)[i], Prg(sid, i, sender.seeds[i]))
              == XorBytes(Expanded(sid, receiver.seeds0)[i], Mask(sender.correlation[i], choices))
    {
      QRowRelation(sender.correlation[i], Prg(sid, i, receiver.seeds0[i]), Prg(sid, i, receiver.seeds1[i]), choices);
    }
  }

  /** The check of an honest receiver always passes. */
  lemma HonestIsConsistent(sender: OTESender, receiver: OTEReceiver, sid: Bytes, choices: PRGOutput)
    requires Matching(sender, receiver)
    ensures Consistent(sender, sid, ReceiverData(sid, receiver, choices))
  {
    hide Weighted, QMatrix, Expanded, UMatrix, Chi, XorBytes, Mask;
    var data := ReceiverData(sid, receiver, choices);
    var chi1, chi2 := Chi(sid, "chi1", data.u), Chi(sid, "chi2", data.u);
    QMatrixRelation(sender, receiver, sid, choices);
    forall i | 0 <= i < KAPPA
      ensures Weighted(QMatrix(sender, sid, data.u)[i], chi1, chi2)
              == XorBytes(data.verify_t[i], Mask(sender.correlation[i], data.verify_x))
    {
      WeightedXor(Expanded(sid, receiver.seeds0)[i], Mask(sender.correlation[i], choices), chi1, chi2);
      WeightedMask(sender.correlation[i], choices, chi1, chi2);
    }
  }

  /** XORing row i by correlation_i * choices XORs column j by choices_j * correlation. */
  lemma TransposeShifted(q: seq<PRGOutput>, t: seq<PRGOutput>, correlation: seq<bool>, choices: PRGOutput, j: nat)
    requires Shifted(q, t, correlation, choices) && j < BATCH_SIZE
    ensures Transposed(q)[j] == XorBytes(Transposed(t)[j], Mask(RowBit(choices, j), Pack(correlation)))
  {
    hide RowBit, Column, XorBytes, Mask, Pack;
    var c: HashOutput := Pack(correlation);
    forall i | 0 <= i < KAPPA
      ensures RowBit(Column(q, j), i) == RowBit(XorBytes(Column(t, j), Mask(RowBit(choices, j), c)), i)
    {
      ColumnBit(q, j, i);
      ColumnBit(t, j, i);
      XorRowBit(t[i], Mask(correlation[i], choices), j);
      MaskRowBit(correlation[i], choices, j);
      XorRowBit(Column(t, j), Mask(RowBit(choices, j), c), i);
      MaskRowBit(RowBit(choices, j), c, i);
      PackRowBit(correlation, i);
    }
    SameRow(Column(q, j), XorBytes(Column(t, j), Mask(RowBit(choices, j), c)));
  }

  /** The final scalars: choice 0 gives opposite values, choice 1 values that differ by the correlation. */
  lemma TransferSum(v0: Scalar, v1: Scalar, input: Scalar)
    ensures Add(v0, Neg(v0)) == 0
    ensures Add(v0, Add(Add(Sub(v1, v0), input), Neg(v1))) == input
  {
    Identities(v0);
    TransferCancels(v0, v1, input);
  }

  lemma TransferCancels(v0: Scalar, v1: Scalar, input: Scalar)
    ensures Add(v0, Add(Add(Sub(v1, v0), input), Neg(v1))) == input
  {
    var v0': int, v1': int, input': int := v0, v1, input;
    OfScalar(v0); OfScalar(v1); OfScalar(input);
    OfNeg(v0'); OfAdd(v1', (-v0')); OfAdd((v1' + (-v0')), input'); OfNeg(v1');
    OfAdd(((v1' + (-v0')) + input'), (-v1')); OfAdd(v0', (((v1' + (-v0')) + input') + (-v1')));
    assert v0' + (((v1' + (-v0')) + input') + (-v1')) == input';
  }

  /** The scalar of position j is the sender's message number choice_j. */
  lemma RowChoice(rows: seq<HashOutput>, t: seq<HashOutput>, correlation: HashOutput, on: bool, j: nat)
    requires |rows| == |t| == BATCH_SIZE && j < BATCH_SIZE
    requires rows[j] == XorBytes(t[j], Mask(on, correlation))
    ensures t[j] == if on then ShiftRows(rows, correlation)[j] else rows[j]
  {
    MaskOff(t[j], correlation);
    XorSelf(t[j], correlation);
  }

  lemma OutputSum(sid: Bytes, rows: seq<HashOutput>, t: seq<HashOutput>, correlation: HashOutput, inputs: Outputs,
                  choice_bits: seq<bool>, i: nat, j: nat)
    requires |rows| == |t| == |choice_bits| == BATCH_SIZE && InnerLengths(inputs) && i < |inputs| && j < BATCH_SIZE
    requires rows[j] == XorBytes(t[j], Mask(choice_bits[j], correlation))
    ensures var (v0, tau) := SenderOutput(sid, rows, correlation, inputs);
      Add(v0[i][j], ReceiverOutput(sid, choice_bits, t, tau)[i][j]) == if choice_bits[j] then inputs[i][j] else 0
  {
    hide Randomize, XorBytes, Mask;
    RowChoice(rows, t, correlation, choice_bits[j], j);
    TransferSum(Randomize(sid, j, i, rows[j]), Randomize(sid, j, i, ShiftRows(rows, correlation)[j]), inputs[i][j]);
  }

  ghost function HonestSenderOutput(sender: OTESender, receiver: OTEReceiver, sid: Bytes, inputs: Outputs, choices: PRGOutput)
    : (r: (Outputs, Outputs))
    requires Matching(sender, receiver) && InnerLengths(inputs)
    ensures |r.0| == |r.1| == |inputs| && InnerLengths(r.0) && InnerLengths(r.1)
  {
    SenderOutput(sid, Transposed(QMatrix(sender, sid, UMatrix(sid, receiver, choices))), Pack(sender.correlation), inputs)
  }

  lemma SenderAccepts(sender: OTESender, receiver: OTEReceiver, sid: Bytes, inputs: Outputs, choices: PRGOutput)
    requires Matching(sender, receiver) && InnerLengths(inputs)
    ensures SenderRun(sender, sid, |inputs|, inputs, ReceiverData(sid, receiver, choices))
            == Ok(HonestSenderOutput(sender, receiver, sid, inputs, choices))
  {
    hide Consistent, QMatrix, UMatrix, Expanded, Transposed, SenderOutput, Pack, Weighted, Chi;
    HonestIsConsistent(sender, receiver, sid, choices);
  }

  lemma OutputsMatch(sender: OTESender, receiver: OTEReceiver, sid: Bytes, inputs: Outputs, choice_bits: seq<bool>,
                     noise: seq<bool>, i: nat, j: nat)
    requires Matching(sender, receiver) && InnerLengths(inputs)
    requires |choice_bits| == BATCH_SIZE && |noise| == OT_SECURITY && i < |inputs| && j < BATCH_SIZE
    ensures var (v0, tau) := HonestSenderOutput(sender, receiver, sid, inputs, Pack(choice_bits + noise));
      var received := ReceiverOutput(sid, choice_bits, Transposed(Expanded(sid, receiver.seeds0)), tau);
      Add(v0[i][j], received[i][j]) == if choice_bits[j] then inputs[i][j] else 0
  {
    hide QMatrix, UMatrix, Expanded, Transposed, SenderOutput, ReceiverOutput, RowBit, Pack, XorBytes, Mask;
    var choices: PRGOutput := Pack(choice_bits + noise);
    var q := QMatrix(sender, sid, UMatrix(sid, receiver, choices));
    var t := Expanded(sid, receiver.seeds0);
    QMatrixRelation(sender, receiver, sid, choices);
    TransposeShifted(q, t, sender.correlation, choices, j);
    PackRowBit(choice_bits + noise, j);
    OutputSum(sid, Transposed(q), Transposed(t), Pack(sender.correlation), inputs, choice_bits, i, j);
  }

  /** Entry by entry, the two outputs add up to choice_j * correlation_j. */
  ghost predicate Transferred(v0: Outputs, received: Outputs, inputs: Outputs, choice_bits: seq<bool>) {
    && |v0| == |received| == |inputs| && |choice_bits| == BATCH_SIZE
    && InnerLengths(v0) && InnerLengths(received) && InnerLengths(inputs)
    && forall i, j :: 0 <= i < |inputs| && 0 <= j < BATCH_SIZE ==>
         Add(v0[i][j], received[i][j]) == if choice_bits[j] then inputs[i][j] else 0
  }

  /** With matching seeds nothing fails, and sender output plus receiver output is choice_j * correlation_j. */
  lemma ExtensionCorrect(sender: OTESender, receiver: OTEReceiver, sid: Bytes, ot_width: nat, inputs: Outputs,
                         choice_bits: seq<bool>, noise: seq<bool>)
    requires Matching(sender, receiver)
    requires |choice_bits| == BATCH_SIZE && |noise| == OT_SECURITY && |inputs| == ot_width && InnerLengths(inputs)
    ensures var first := ReceiverRun1(receiver, sid, choice_bits, noise);
      && first.Ok?
      && var sent := SenderRun(sender, sid, ot_width, inputs, first.value.1);
      && sent.Ok?
      && |sent.value.0| == |sent.value.1| == ot_width && InnerLengths(sent.value.0) && InnerLengths(sent.value.1)
      && var received := ReceiverRun2(sid, ot_width, choice_bits, first.value.0, sent.value.1);
      && received.Ok?
      && Transferred(sent.value.0, received.value, inputs, choice_bits)
  {
    hide SenderRun, HonestSenderOutput, ReceiverData, Expanded, Transposed, ReceiverOutput, Pack;
    SenderAccepts(sender, receiver, sid, inputs, Pack(choice_bits + noise));
    var (v0, tau) := HonestSenderOutput(sender, receiver, sid, inputs, Pack(choice_bits + noise));
    var received := ReceiverOutput(sid, choice_bits, Transposed(Expanded(sid, receiver.seeds0)), tau);
    forall i, j | 0 <= i < ot_width && 0 <= j < BATCH_SIZE
      ensures Add(v0[i][j], received[i][j]) == if choice_bits[j] then inputs[i][j] else 0
    {
      OutputsMatch(sender, receiver, sid, inputs, choice_bits, noise, i, j);
    }
  }
}
