/** What the two ends of the OT extension send, accept and output, bit by bit, and what they reject. */
module OTAcceptance {
  import opened Outcomes
  import opened PrimeField
  import opened Bits
  import opened PackedBits
  import opened Hashes
  import opened Curve
  import opened OracleTags
  import opened BinaryField
  import opened Transpose
  import opened OTExtension

  // The values that both ends compute

  /** 78 bytes of the generator: the digests for the counters 0, 1 and 2. */
  ghost function PrgRow(sid: Bytes, i: nat, seed: HashOutput): (row: PRGOutput) {
    seq(78, k requires 0 <= k < 78 => TaggedHash(TAG_OTE_PRG, [sid, BigEndian(i, 2), BigEndian(k / 32, 2), seed])[k % 32])
  }

  lemma ThreeChunks(sid: Bytes, i: nat, seed: HashOutput)
    ensures Chunks(sid, i, 3, seed) == Chunk(sid, i, 0, seed) + Chunk(sid, i, 1, seed) + Chunk(sid, i, 2, seed)
  {
    hide Chunk;
    var c0: Bytes, c1: Bytes := Chunk(sid, i, 0, seed), Chunk(sid, i, 1, seed);
    assert Chunks(sid, i, 1, seed) == c0;
    assert Chunks(sid, i, 2, seed) == c0 + c1;
  }

  lemma PrgIs(sid: Bytes, i: nat, seed: HashOutput)
    ensures Prg(sid, i, seed) == PrgRow(sid, i, seed)
  {
    hide Chunk, Chunks;
    ThreeChunks(sid, i, seed);
    forall k | 0 <= k < 78 ensures Prg(sid, i, seed)[k] == PrgRow(sid, i, seed)[k] {
      ChunkIs(sid, i, k / 32, seed);
    }
  }

  lemma ChunkIs(sid: Bytes, i: nat, count: nat, seed: HashOutput)
    ensures Chunk(sid, i, count, seed) == TaggedHash(TAG_OTE_PRG, [sid, BigEndian(i, 2), BigEndian(count, 2), seed])
  {}

  ghost function ChiWeight(sid: Bytes, name: string, u: seq<PRGOutput>): FieldElement {
    TaggedHash(TAG_OTE_CHI, [sid, Ascii(name), Concat(u)])[..26]
  }

  /** r_1 * chi1 + r_2 * chi2 + r_3 in GF(2^208), for the thirds of a row and the two hashes of u. */
  ghost function CheckSum(sid: Bytes, u: seq<PRGOutput>, row: PRGOutput): FieldElement {
    XorBytes(XorBytes(FieldProduct(row[..26], ChiWeight(sid, "chi1", u)), FieldProduct(row[26..52], ChiWeight(sid, "chi2", u))),
             row[52..78])
  }

  lemma CheckSumIs(sid: Bytes, u: seq<PRGOutput>, row: PRGOutput)
    ensures Weighted(row, Chi(sid, "chi1", u), Chi(sid, "chi2", u)) == CheckSum(sid, u, row)
  {
    hide FieldProduct, XorBytes;
  }

  // The receiver's message

  ghost predicate HasBits(row: PRGOutput, bits: seq<bool>) {
    |bits| == 624 && forall j :: 0 <= j < 624 ==> RowBit(row, j) == bits[j]
  }

  /** Bit j of row i of u is the XOR of the two generators' bits and of choice bit or noise bit j; the check values are the
      check sums of the choices and of the first generator's rows. */
  lemma ReceiverSends(receiver: OTEReceiver, sid: Bytes, choice_bits: seq<bool>, noise: seq<bool>)
    requires |choice_bits| == BATCH_SIZE && |noise| == OT_SECURITY
    ensures ReceiverRun1(receiver, sid, choice_bits, noise).Ok? <==> |receiver.seeds0| == |receiver.seeds1| == 256
    ensures ReceiverRun1(receiver, sid, choice_bits, noise).Err? ==>
      ReceiverRun1(receiver, sid, choice_bits, noise) == Err(WrongState)
    ensures ReceiverRun1(receiver, sid, choice_bits, noise).Ok? ==>
      var (kept, data) := ReceiverRun1(receiver, sid, choice_bits, noise).value;
      && |kept| == |data.u| == |data.verify_t| == 256
      && (forall i :: 0 <= i < 256 ==> kept[i] == PrgRow(sid, i, receiver.seeds0[i]))
      && (forall i, j :: 0 <= i < 256 && 0 <= j < 624 ==>
           RowBit(data.u[i], j)
           == ((RowBit(kept[i], j) != RowBit(PrgRow(sid, i, receiver.seeds1[i]), j)) != (choice_bits + noise)[j]))
      && (forall i :: 0 <= i < 256 ==> data.verify_t[i] == CheckSum(sid, data.u, kept[i]))
      && (forall x: PRGOutput :: HasBits(x, choice_bits + noise) ==> data.verify_x == CheckSum(sid, data.u, x))
  {
    hide Weighted, RowBit, Pack, Prg, PrgRow, Chi, CheckSum;
    if |receiver.seeds0| == |receiver.seeds1| == 256 {
      var bits := choice_bits + noise;
      var choices: PRGOutput := Pack(bits);
      var (kept, data) := ReceiverRun1(receiver, sid, choice_bits, noise).value;
      forall i | 0 <= i < 256 ensures kept[i] == PrgRow(sid, i, receiver.seeds0[i]) {
        PrgIs(sid, i, receiver.seeds0[i]);
      }
      forall i, j | 0 <= i < 256 && 0 <= j < 624
        ensures RowBit(data.u[i], j) == ((RowBit(kept[i], j) != RowBit(PrgRow(sid, i, receiver.seeds1[i]), j)) != bits[j])
      {
        PrgIs(sid, i, receiver.seeds0[i]);
        PrgIs(sid, i, receiver.seeds1[i]);
        URowBit(kept[i], PrgRow(sid, i, receiver.seeds1[i]), bits, j);
      }
      forall i | 0 <= i < 256 ensures data.verify_t[i] == CheckSum(sid, data.u, kept[i]) {
        CheckSumIs(sid, data.u, kept[i]);
      }
      CheckSumIs(sid, data.u, choices);
      forall x: PRGOutput | HasBits(x, bits) ensures x == choices {
        PackedIs(bits, x);
      }
    }
  }

  lemma URowBit(a: PRGOutput, b: PRGOutput, bits: seq<bool>, j: nat)
    requires |bits| == 624 && j < 624
    ensures RowBit(URow(a, b, Pack(bits)), j) == ((RowBit(a, j) != RowBit(b, j)) != bits[j])
  {
    hide RowBit, XorBytes, Pack;
    XorRowBit(XorBytes(a, b), Pack(bits), j);
    XorRowBit(a, b, j);
    PackRowBit(bits, j);
  }

  /** Only one row has these bits. */
  lemma PackedIs(bits: seq<bool>, x: Bytes)
    requires |bits| % 8 == 0 && |x| == |bits| / 8 && forall j :: 0 <= j < |bits| ==> RowBit(x, j) == bits[j]
    ensures x == Pack(bits)
  {
    hide RowBit, Pack;
    forall j | 0 <= j < 8 * |x| ensures RowBit(x, j) == RowBit(Pack(bits), j) {
      PackRowBit(bits, j);
    }
    SameRow(x, Pack(bits));
  }

  // The sender's check

  /** Row i of q: the generator's row, XORed with row i of u if correlation bit i is set. */
  ghost function SenderRowAt(sender: OTESender, sid: Bytes, data: OTEDataToSender, i: nat): PRGOutput
    requires i < |sender.correlation| && i < |sender.seeds| && i < |data.u|
  {
    if sender.correlation[i] then XorBytes(data.u[i], PrgRow(sid, i, sender.seeds[i])) else PrgRow(sid, i, sender.seeds[i])
  }

  /** Row i passes the consistency check. */
  ghost predicate RowPasses(sender: OTESender, sid: Bytes, data: OTEDataToSender, i: nat)
    requires i < |sender.correlation| && i < |sender.seeds| && i < |data.u| && i < |data.verify_t|
  {
    CheckSum(sid, data.u, SenderRowAt(sender, sid, data, i))
    == if sender.correlation[i] then XorBytes(data.verify_t[i], data.verify_x) else data.verify_t[i]
  }

  lemma MaskedIs(on: bool, a: Bytes, b: Bytes)
    requires |a| == |b|
    ensures XorBytes(Mask(on, a), b) == if on then XorBytes(a, b) else b
    ensures XorBytes(b, Mask(on, a)) == if on then XorBytes(b, a) else b
  {
    forall k | 0 <= k < |a|
      ensures XorBytes(Mask(on, a), b)[k] == if on then XorBytes(a, b)[k] else b[k]
      ensures XorBytes(b, Mask(on, a))[k] == if on then XorBytes(b, a)[k] else b[k]
    {
      MaskByteValue(on, a[k]);
      XorZero(b[k]);
    }
  }

  lemma XorZero(x: Byte)
    ensures XorByte(0, x) == x && XorByte(x, 0) == x
  {}

  lemma QRowIs(sender: OTESender, sid: Bytes, data: OTEDataToSender, i: nat)
    requires |sender.correlation| == |sender.seeds| == |data.u| == |data.verify_t| == KAPPA && i < KAPPA
    ensures QMatrix(sender, sid, data.u)[i] == SenderRowAt(sender, sid, data, i)
  {
    hide Prg, PrgRow, XorBytes, Mask;
    PrgIs(sid, i, sender.seeds[i]);
    MaskedIs(sender.correlation[i], data.u[i], PrgRow(sid, i, sender.seeds[i]));
  }

  lemma RowPassesIs(sender: OTESender, sid: Bytes, data: OTEDataToSender, i: nat)
    requires |sender.correlation| == |sender.seeds| == |data.u| == |data.verify_t| == KAPPA && i < KAPPA
    ensures RowPasses(sender, sid, data, i) <==>
      Weighted(QMatrix(sender, sid, data.u)[i], Chi(sid, "chi1", data.u), Chi(sid, "chi2", data.u))
      == XorBytes(data.verify_t[i], Mask(sender.correlation[i], data.verify_x))
  {
    hide Weighted, CheckSum, Chi, XorBytes, Mask, QMatrix, SenderRowAt;
    QRowIs(sender, sid, data, i);
    CheckSumIs(sid, data.u, SenderRowAt(sender, sid, data, i));
    MaskedIs(sender.correlation[i], data.verify_x, data.verify_t[i]);
  }

  /** The sender goes on just when all sizes fit and each of the 256 rows passes the consistency check. */
  lemma SenderDecides(sender: OTESender, sid: Bytes, ot_width: nat, inputs: Outputs, data: OTEDataToSender)
    ensures SenderRun(sender, sid, ot_width, inputs, data).Ok? <==>
      && |inputs| == ot_width && (forall i :: 0 <= i < |inputs| ==> |inputs[i]| == 416)
      && |sender.correlation| == |sender.seeds| == |data.u| == |data.verify_t| == 256
      && forall i :: 0 <= i < 256 ==> RowPasses(sender, sid, data, i)
    ensures
      && |inputs| == ot_width && (forall i :: 0 <= i < |inputs| ==> |inputs[i]| == 416)
      && |sender.correlation| == |sender.seeds| == |data.u| == |data.verify_t| == 256
      && SenderRun(sender, sid, ot_width, inputs, data).Err? ==>
        SenderRun(sender, sid, ot_width, inputs, data) == Err(ConsistencyCheckFailed)
    ensures |inputs| != ot_width ==> SenderRun(sender, sid, ot_width, inputs, data) == Err(WrongCorrelationCount)
    ensures |inputs| == ot_width && (exists i :: 0 <= i < |inputs| && |inputs[i]| != 416) ==>
      SenderRun(sender, sid, ot_width, inputs, data) == Err(WrongInnerLength)
    ensures |inputs| == ot_width && InnerLengths(inputs) && !(|sender.correlation| == |sender.seeds| == 256) ==>
      SenderRun(sender, sid, ot_width, inputs, data) == Err(WrongState)
    ensures
      && |inputs| == ot_width && InnerLengths(inputs)
      && |sender.correlation| == |sender.seeds| == 256 && !(|data.u| == |data.verify_t| == 256) ==>
        SenderRun(sender, sid, ot_width, inputs, data) == Err(WrongData)
  {
    hide RowPasses, Weighted, Chi, QMatrix, SenderOutput, Transposed;
    if |sender.correlation| == |sender.seeds| == |data.u| == |data.verify_t| == 256 {
      forall i | 0 <= i < 256
        ensures RowPasses(sender, sid, data, i) <==>
          Weighted(QMatrix(sender, sid, data.u)[i], Chi(sid, "chi1", data.u), Chi(sid, "chi2", data.u))
          == XorBytes(data.verify_t[i], Mask(sender.correlation[i], data.verify_x))
      {
        RowPassesIs(sender, sid, data, i);
      }
    }
  }

  lemma XorFixed(a: Bytes, b: Bytes, c: Bytes)
    requires |a| == |b| == |c| && (XorBytes(a, c) == XorBytes(b, c) || XorBytes(c, a) == XorBytes(c, b))
    ensures a == b
  {
    forall k | 0 <= k < |a| ensures a[k] == b[k] {
      XorByteFixed(a[k], b[k], c[k]);
      assert XorBytes(a, c)[k] == XorByte(a[k], c[k]) && XorBytes(b, c)[k] == XorByte(b[k], c[k]);
      assert XorBytes(c, a)[k] == XorByte(c[k], a[k]) && XorBytes(c, b)[k] == XorByte(c[k], b[k]);
    }
  }

  lemma XorByteFixed(x: Byte, y: Byte, z: Byte)
    ensures XorByte(x, z) == XorByte(y, z) ==> x == y
    ensures XorByte(z, x) == XorByte(z, y) ==> x == y
  {}

  /** Honest data, as the receiver with these seeds sends it for these choices. */
  ghost predicate Honest(receiver: OTEReceiver, sid: Bytes, data: OTEDataToSender) {
    |receiver.seeds0| == |receiver.seeds1| == KAPPA && exists choices :: data == ReceiverData(sid, receiver, choices)
  }

  lemma HonestPasses(sender: OTESender, receiver: OTEReceiver, sid: Bytes, data: OTEDataToSender)
    requires Matching(sender, receiver) && Honest(receiver, sid, data)
    ensures |data.u| == |data.verify_t| == KAPPA
    ensures forall i :: 0 <= i < KAPPA ==> RowPasses(sender, sid, data, i)
  {
    hide RowPasses, Weighted, Chi, QMatrix, UMatrix, Expanded;
    var choices :| data == ReceiverData(sid, receiver, choices);
    HonestIsConsistent(sender, receiver, sid, choices);
    forall i | 0 <= i < KAPPA ensures RowPasses(sender, sid, data, i) {
      RowPassesIs(sender, sid, data, i);
    }
  }

  /** With matching states and honest data, any other list verify_t is rejected. */
  lemma TamperedTRejected(sender: OTESender, receiver: OTEReceiver, sid: Bytes, inputs: Outputs, data: OTEDataToSender,
                          t: seq<FieldElement>)
    requires Matching(sender, receiver) && Honest(receiver, sid, data) && InnerLengths(inputs) && t != data.verify_t
    ensures SenderRun(sender, sid, |inputs|, inputs, data.(verify_t := t))
            == Err(if |t| == KAPPA then ConsistencyCheckFailed else WrongData)
  {
    hide Honest, SenderOutput, Transposed, QMatrix, Consistent, Prg, PrgRow, CheckSum, ChiWeight;
    HonestPasses(sender, receiver, sid, data);
    var changed := data.(verify_t := t);
    if |t| == KAPPA {
      var i :| 0 <= i < KAPPA && t[i] != data.verify_t[i];
      assert RowPasses(sender, sid, data, i);
      assert SenderRowAt(sender, sid, changed, i) == SenderRowAt(sender, sid, data, i);
      if RowPasses(sender, sid, changed, i) {
        if sender.correlation[i] {
          XorFixed(t[i], data.verify_t[i], data.verify_x);
        }
        assert false;
      }
      SenderDecides(sender, sid, |inputs|, inputs, changed);
    }
  }

  /** With matching states and honest data, another verify_x is rejected just when some correlation bit is set. */
  lemma TamperedXRejected(sender: OTESender, receiver: OTEReceiver, sid: Bytes, inputs: Outputs, data: OTEDataToSender,
                          x: FieldElement)
    requires Matching(sender, receiver) && Honest(receiver, sid, data) && InnerLengths(inputs) && x != data.verify_x
    ensures var r := SenderRun(sender, sid, |inputs|, inputs, data.(verify_x := x));
      if exists i :: 0 <= i < KAPPA && sender.correlation[i] then r == Err(ConsistencyCheckFailed) else r.Ok?
  {
    hide Honest, SenderOutput, Transposed, QMatrix, Consistent, SenderRun, Prg, PrgRow, CheckSum, ChiWeight;
    HonestPasses(sender, receiver, sid, data);
    var changed := data.(verify_x := x);
    SenderDecides(sender, sid, |inputs|, inputs, changed);
    forall i | 0 <= i < KAPPA ensures RowPasses(sender, sid, changed, i) <==> !sender.correlation[i] {
      assert RowPasses(sender, sid, data, i);
      assert SenderRowAt(sender, sid, changed, i) == SenderRowAt(sender, sid, data, i);
      if RowPasses(sender, sid, changed, i) && sender.correlation[i] {
        XorFixed(x, data.verify_x, data.verify_t[i]);
        assert false;
      }
    }
  }

  // The outputs

  /** col is column j of the matrix. */
  ghost predicate IsColumn(rows: seq<PRGOutput>, j: nat, col: HashOutput)
    requires |rows| == 256 && j < 416
  {
    forall i :: 0 <= i < 256 ==> RowBit(col, i) == RowBit(rows[i], j)
  }

  lemma ColumnIs(rows: seq<PRGOutput>, j: nat, col: HashOutput)
    requires |rows| == KAPPA && j < BATCH_SIZE && IsColumn(rows, j, col)
    ensures col == Transposed(rows)[j]
  {
    hide RowBit, Column;
    forall i | 0 <= i < 8 * |col| ensures RowBit(col, i) == RowBit(Column(rows, j), i) {
      ColumnBit(rows, j, i);
    }
    SameRow(col, Column(rows, j));
  }

  /** The scalar derived from column j in iteration i. */
  ghost function ColumnScalar(sid: Bytes, i: nat, j: nat, col: HashOutput): Scalar {
    ReduceHash(TaggedHash(TAG_OTE_RANDOMIZE, [sid, BigEndian(j, 2), BigEndian(i, 1), col]))
  }

  /** The packed correlation bits. */
  ghost predicate IsPacked(bits: seq<bool>, c: HashOutput)
    requires |bits| == 256
  {
    forall i :: 0 <= i < 256 ==> RowBit(c, i) == bits[i]
  }

  /** The sender outputs the scalars of the columns of q, and tau corrects those of the shifted columns by the inputs. */
  lemma SenderOutputs(sender: OTESender, sid: Bytes, ot_width: nat, inputs: Outputs, data: OTEDataToSender, i: nat, j: nat,
                      col: HashOutput, delta: HashOutput)
    requires SenderRun(sender, sid, ot_width, inputs, data).Ok? && i < ot_width && j < 416
    requires |sender.correlation| == |sender.seeds| == |data.u| == |data.verify_t| == 256
    requires IsColumn(seq(256, r requires 0 <= r < 256 => SenderRowAt(sender, sid, data, r)), j, col)
    requires IsPacked(sender.correlation, delta)
    ensures var (v0, tau) := SenderRun(sender, sid, ot_width, inputs, data).value;
      && |inputs| == |v0| == |tau| == ot_width && |inputs[i]| == |v0[i]| == |tau[i]| == 416
      && v0[i][j] == ColumnScalar(sid, i, j, col)
      && tau[i][j] == Add(Sub(ColumnScalar(sid, i, j, XorBytes(col, delta)), ColumnScalar(sid, i, j, col)), inputs[i][j])
  {
    hide QRow, SenderRowAt, Consistent, RowBit, Transposed, XorBytes, IsColumn, Pack, IsPacked, ColumnScalar, Randomize;
    var rows := seq(256, r requires 0 <= r < 256 => SenderRowAt(sender, sid, data, r));
    var q := QMatrix(sender, sid, data.u);
    assert q == rows by {
      forall r | 0 <= r < 256 ensures q[r] == rows[r] {
        QRowIs(sender, sid, data, r);
      }
    }
    ColumnIs(rows, j, col);
    PackedDelta(sender.correlation, delta);
    ScalarIs(sid, j, i, col);
    ScalarIs(sid, j, i, XorBytes(col, delta));
  }

  lemma PackedDelta(bits: seq<bool>, c: HashOutput)
    requires |bits| == 256 && IsPacked(bits, c)
    ensures c == Pack(bits)
  {
    hide RowBit, Pack;
    PackedIs(bits, c);
  }

  lemma ScalarIs(sid: Bytes, j: nat, i: nat, col: HashOutput)
    ensures Randomize(sid, j, i, col) == ColumnScalar(sid, i, j, col)
  {}

  /** The receiver goes on just when all sizes fit; it outputs the negated scalars of its columns, plus tau where its choice
      bit is set. */
  lemma ReceiverOutputs(sid: Bytes, ot_width: nat, choice_bits: seq<bool>, kept: seq<PRGOutput>, taus: Outputs, i: nat, j: nat,
                        col: HashOutput)
    ensures ReceiverRun2(sid, ot_width, choice_bits, kept, taus).Ok? <==>
      && |choice_bits| == 416 && |kept| == 256 && |taus| == ot_width && forall k :: 0 <= k < |taus| ==> |taus[k]| == 416
    ensures ReceiverRun2(sid, ot_width, choice_bits, kept, taus).Err? ==>
      ReceiverRun2(sid, ot_width, choice_bits, kept, taus).error
      == if |choice_bits| != 416 then WrongChoiceBits else if |kept| != 256 then WrongExtendedSeeds
         else if |taus| != ot_width then WrongTau else WrongInnerLength
    ensures ReceiverRun2(sid, ot_width, choice_bits, kept, taus).Ok? && i < ot_width && j < 416 && IsColumn(kept, j, col) ==>
      ReceiverRun2(sid, ot_width, choice_bits, kept, taus).value[i][j]
      == if choice_bits[j] then Sub(taus[i][j], ColumnScalar(sid, i, j, col)) else Neg(ColumnScalar(sid, i, j, col))
  {
    hide RowBit, Transposed, IsColumn, ColumnScalar, Randomize;
    if ReceiverRun2(sid, ot_width, choice_bits, kept, taus).Ok? && i < ot_width && j < 416 && IsColumn(kept, j, col) {
      ColumnIs(kept, j, col);
      ScalarIs(sid, j, i, col);
    }
  }
}
