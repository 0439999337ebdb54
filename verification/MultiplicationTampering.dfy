/** What an arbitrary answer in place of the honest sender's does to the multiplication: when the receiver's check notices it
    and by how much the result is off when it does not. */
module MultiplicationTampering {
  import opened Outcomes
  import opened PrimeField
  import opened Sums
  import opened Polynomials
  import opened Hashes
  import opened Curve
  import opened OracleTags
  import opened PackedBits
  import opened BinaryField
  import opened Transpose
  import opened OTExtension
  import opened OTAcceptance
  import opened Multiplication
  import opened MultiplicationAcceptance
  import opened OracleUses

  /** All sizes are the right ones. */
  ghost predicate WellShaped(a: MulDataToReceiver) {
    && |a.vector_of_tau| == 4 && (forall i :: 0 <= i < 4 ==> |a.vector_of_tau[i]| == 416)
    && |a.verify_u| == |a.gamma_sender| == 2
  }

  /** By how much the correction at (i, j) differs. */
  ghost function TauError(a: MulDataToReceiver, b: MulDataToReceiver, i: nat, j: nat): Scalar
    requires WellShaped(a) && WellShaped(b) && i < 4 && j < 416
  {
    Sub(b.vector_of_tau[i][j], a.vector_of_tau[i][j])
  }

  /** The error of u_i is chi~_i e_ij + chi^_i e_(i+2)j. */
  ghost predicate CancelAt(kept: MulDataToKeepReceiver, a: MulDataToReceiver, b: MulDataToReceiver, i: nat, j: nat)
    requires WellShaped(a) && WellShaped(b) && i < 2 && j < 416
  {
    Sub(b.verify_u[i], a.verify_u[i])
    == Add(Mul(kept.chi_tilde[i], TauError(a, b, i, j)), Mul(kept.chi_hat[i], TauError(a, b, 2 + i, j)))
  }

  /** The errors cancel in every entry at a set choice bit. At the other bits nothing is demanded. */
  ghost predicate ErrorsCancel(kept: MulDataToKeepReceiver, a: MulDataToReceiver, b: MulDataToReceiver)
    requires WellShaped(a) && WellShaped(b) && |kept.choice_bits| == 416
  {
    forall i, j :: 0 <= i < 2 && 0 <= j < 416 && kept.choice_bits[j] ==> CancelAt(kept, a, b, i, j)
  }

  ghost function OutputsFor(sid: Bytes, kept: MulDataToKeepReceiver, a: MulDataToReceiver): (z: Outputs)
    requires WellShaped(a) && |kept.choice_bits| == 416 && |kept.extended_seeds| == 256
    ensures Shape(z)
  {
    hide OTExtension.Transposed;
    ReceiverRun2(Ascii("OT Extension protocol") + sid, 4, kept.choice_bits, kept.extended_seeds, a.vector_of_tau).value
  }

  /** The outputs of the OT extension differ by the errors of tau at the set choice bits only. */
  lemma OutputsDiffer(sid: Bytes, kept: MulDataToKeepReceiver, a: MulDataToReceiver, b: MulDataToReceiver, i: nat, j: nat)
    requires WellShaped(a) && WellShaped(b) && |kept.choice_bits| == 416 && |kept.extended_seeds| == 256 && i < 4 && j < 416
    ensures Sub(OutputsFor(sid, kept, b)[i][j], OutputsFor(sid, kept, a)[i][j])
            == if kept.choice_bits[j] then TauError(a, b, i, j) else 0
  {
    hide RowBit, OTExtension.Transposed, Column, ReceiverRun2, ColumnScalar;
    var s := Ascii("OT Extension protocol") + sid;
    var col := Column(kept.extended_seeds, j);
    forall k | 0 <= k < 256 ensures RowBit(col, k) == RowBit(kept.extended_seeds[k], j) {
      ColumnBit(kept.extended_seeds, j, k);
    }
    ReceiverOutputs(s, 4, kept.choice_bits, kept.extended_seeds, a.vector_of_tau, i, j, col);
    ReceiverOutputs(s, 4, kept.choice_bits, kept.extended_seeds, b.vector_of_tau, i, j, col);
    SameShift(b.vector_of_tau[i][j], a.vector_of_tau[i][j], ColumnScalar(s, i, j, col));
    Identities(Neg(ColumnScalar(s, i, j, col)));
  }

  lemma SameShift(x: Scalar, y: Scalar, c: Scalar)
    ensures Sub(Sub(x, c), Sub(y, c)) == Sub(x, y)
  {
    var x': int, c': int, y': int := x, c, y;
    OfScalar(x); OfScalar(c); OfScalar(y);
    OfNeg(c'); OfAdd(x', (-c')); OfAdd(y', (-c')); OfNeg((y' + (-c'))); OfAdd((x' + (-c')), (-(y' + (-c'))));
    OfNeg(y'); OfAdd(x', (-y'));
    assert (x' + (-c')) + (-(y' + (-c'))) == x' + (-y');
  }

  // The check

  lemma SameDifference(x: Scalar, y: Scalar)
    ensures Sub(x, y) == 0 <==> x == y
  {
    Identities(x);
    if Sub(x, y) == 0 {
      DifferenceZero(x, y);
    }
  }

  lemma MovedTerms(p: Scalar, q: Scalar, u: Scalar, r: Scalar, s: Scalar, v: Scalar)
    ensures Sub(Add(Neg(Add(r, s)), v), Add(Neg(Add(p, q)), u)) == Sub(Sub(v, u), Add(Sub(r, p), Sub(s, q)))
  {
    var r': int, s': int, v': int, p': int, q': int, u': int := r, s, v, p, q, u;
    OfScalar(r); OfScalar(s); OfScalar(v); OfScalar(p); OfScalar(q); OfScalar(u);
    OfAdd(r', s'); OfNeg((r' + s')); OfAdd((-(r' + s')), v'); OfAdd(p', q'); OfNeg((p' + q'));
    OfAdd((-(p' + q')), u'); OfNeg(((-(p' + q')) + u')); OfAdd(((-(r' + s')) + v'), (-((-(p' + q')) + u')));
    OfNeg(u'); OfAdd(v', (-u')); OfNeg(p'); OfAdd(r', (-p')); OfNeg(q'); OfAdd(s', (-q'));
    OfAdd((r' + (-p')), (s' + (-q'))); OfNeg(((r' + (-p')) + (s' + (-q'))));
    OfAdd((v' + (-u')), (-((r' + (-p')) + (s' + (-q')))));
    assert ((-(r' + s')) + v') + (-((-(p' + q')) + u')) == (v' + (-u')) + (-((r' + (-p')) + (s' + (-q'))));
  }

  lemma EntriesEqual(ct: Scalar, x: Scalar, x': Scalar, ch: Scalar, y: Scalar, y': Scalar, u: Scalar, u': Scalar)
    ensures Add(Neg(Add(Mul(ct, x'), Mul(ch, y'))), u') == Add(Neg(Add(Mul(ct, x), Mul(ch, y))), u)
       <==> Sub(u', u) == Add(Mul(ct, Sub(x', x)), Mul(ch, Sub(y', y)))
  {
    hide *;
    DistributeSub(ct, x', x);
    DistributeSub(ch, y', y);
    MovedTerms(Mul(ct, x), Mul(ch, y), u, Mul(ct, x'), Mul(ch, y'), u');
    SameDifference(Add(Neg(Add(Mul(ct, x'), Mul(ch, y'))), u'), Add(Neg(Add(Mul(ct, x), Mul(ch, y))), u));
    SameDifference(Sub(u', u), Add(Mul(ct, Sub(x', x)), Mul(ch, Sub(y', y))));
  }

  /** The receiver recomputes the same matrix exactly if the errors cancel. */
  lemma MatrixUnchanged(sid: Bytes, kept: MulDataToKeepReceiver, a: MulDataToReceiver, b: MulDataToReceiver)
    requires WellShaped(a) && WellShaped(b) && |kept.choice_bits| == 416 && |kept.extended_seeds| == 256
    ensures Recomputed(kept, OutputsFor(sid, kept, b), b.verify_u) == Recomputed(kept, OutputsFor(sid, kept, a), a.verify_u)
       <==> ErrorsCancel(kept, a, b)
  {
    hide OutputsFor, Add, Mul, Neg, Sub;
    var z, z' := OutputsFor(sid, kept, a), OutputsFor(sid, kept, b);
    var m, m' := Recomputed(kept, z, a.verify_u), Recomputed(kept, z', b.verify_u);
    forall i, j | 0 <= i < 2 && 0 <= j < 416
      ensures m'[i][j] == m[i][j] <==> (kept.choice_bits[j] ==> CancelAt(kept, a, b, i, j))
    {
      OutputsDiffer(sid, kept, a, b, i, j);
      OutputsDiffer(sid, kept, a, b, 2 + i, j);
      if kept.choice_bits[j] {
        EntriesEqual(kept.chi_tilde[i], z[i][j], z'[i][j], kept.chi_hat[i], z[2 + i][j], z'[2 + i][j], a.verify_u[i], b.verify_u[i]);
      } else {
        SameDifference(z'[i][j], z[i][j]);
        SameDifference(z'[2 + i][j], z[2 + i][j]);
      }
    }
    hide CancelAt, Recomputed;
    RecomputedShape(kept, z, a.verify_u);
    RecomputedShape(kept, z', b.verify_u);
    if ErrorsCancel(kept, a, b) {
      forall i | 0 <= i < 2 ensures m'[i] == m[i] {
        assert forall j :: 0 <= j < 416 ==> m'[i][j] == m[i][j];
      }
      assert m' == m;
    }
  }

  lemma RecomputedShape(kept: MulDataToKeepReceiver, z: Outputs, u: seq<Scalar>)
    requires |u| == 2 && Shape(z) && |kept.choice_bits| == 416
    ensures |Recomputed(kept, z, u)| == 2 && forall i :: 0 <= i < 2 ==> |Recomputed(kept, z, u)[i]| == 416
  {}

  // The shares

  /** By how much share i is off: b times the error of gamma_i plus the gadget-weighted errors of tau at the set choice bits. */
  ghost function ShareError(receiver: MulReceiver, kept: MulDataToKeepReceiver, a: MulDataToReceiver, b: MulDataToReceiver, i: nat)
    : Scalar
    requires WellShaped(a) && WellShaped(b) && |kept.choice_bits| == 416 && i < 2
  {
    Add(Mul(kept.b, Sub(b.gamma_sender[i], a.gamma_sender[i])),
        Sum(seq<Scalar>(416, j requires 0 <= j < 416 =>
          if kept.choice_bits[j] then Mul(receiver.public_gadget[j], TauError(a, b, i, j)) else 0)))
  }

  lemma Difference(x: Scalar, y: Scalar)
    ensures Add(y, Sub(x, y)) == x
  {
    var y': int, x': int := y, x;
    OfScalar(y); OfScalar(x);
    OfNeg(y'); OfAdd(x', (-y')); OfAdd(y', (x' + (-y')));
    assert y' + (x' + (-y')) == x';
  }

  lemma ScaledDifference(c: Scalar, x: Scalar, y: Scalar)
    ensures Mul(c, x) == Add(Mul(c, y), Mul(c, Sub(x, y)))
  {
    Difference(x, y);
    Distribute(c, y, Sub(x, y));
  }

  lemma SharesDiffer(receiver: MulReceiver, sid: Bytes, kept: MulDataToKeepReceiver, a: MulDataToReceiver,
                     b: MulDataToReceiver, i: nat)
    requires WellShaped(a) && WellShaped(b) && |kept.choice_bits| == 416 && |kept.extended_seeds| == 256 && i < 2
    ensures Add(Mul(kept.b, b.gamma_sender[i]), GadgetSum(receiver.public_gadget, OutputsFor(sid, kept, b)[i]))
            == Add(Add(Mul(kept.b, a.gamma_sender[i]), GadgetSum(receiver.public_gadget, OutputsFor(sid, kept, a)[i])),
                   ShareError(receiver, kept, a, b, i))
  {
    hide OutputsFor, Add, Mul, Neg, Sub;
    var g := receiver.public_gadget;
    var z, z' := OutputsFor(sid, kept, a)[i], OutputsFor(sid, kept, b)[i];
    var s := seq<Scalar>(416, j requires 0 <= j < 416 => Mul(g[j], z[j]));
    var s' := seq<Scalar>(416, j requires 0 <= j < 416 => Mul(g[j], z'[j]));
    var e := seq<Scalar>(416, j requires 0 <= j < 416 => if kept.choice_bits[j] then Mul(g[j], TauError(a, b, i, j)) else 0);
    forall j | 0 <= j < 416 ensures s'[j] == Add(s[j], e[j]) {
      OutputsDiffer(sid, kept, a, b, i, j);
      ScaledDifference(g[j], z'[j], z[j]);
      Identities(g[j]);
    }
    SumAdd(s, e, s');
    ScaledDifference(kept.b, b.gamma_sender[i], a.gamma_sender[i]);
    Interchange(Mul(kept.b, a.gamma_sender[i]), Mul(kept.b, Sub(b.gamma_sender[i], a.gamma_sender[i])), Sum(s), Sum(e));
  }

  lemma SizesFit(sid: Bytes, kept: MulDataToKeepReceiver, a: MulDataToReceiver)
    ensures |kept.choice_bits| == 416 && |kept.extended_seeds| == 256 && |a.verify_u| == |a.gamma_sender| == 2 ==>
      (ReceiverRun2(Ascii("OT Extension protocol") + sid, 4, kept.choice_bits, kept.extended_seeds, a.vector_of_tau).Ok?
       <==> WellShaped(a))
    ensures ReceiverRun2(Ascii("OT Extension protocol") + sid, 4, kept.choice_bits, kept.extended_seeds, a.vector_of_tau).Ok? ==>
      |kept.choice_bits| == 416 && |kept.extended_seeds| == 256
  {
    hide ReceiverRun2;
    ReceiverOutputs(Ascii("OT Extension protocol") + sid, 4, kept.choice_bits, kept.extended_seeds, a.vector_of_tau, 4, 0, seq(32, _ => 0));
  }

  /** The bytes whose hash is compared with verify_r. */
  ghost function CheckedBytes(sid: Bytes, kept: MulDataToKeepReceiver, a: MulDataToReceiver): Bytes
    requires WellShaped(a) && |kept.choice_bits| == 416 && |kept.extended_seeds| == 256
  {
    MatrixBytes(Recomputed(kept, OutputsFor(sid, kept, a), a.verify_u))
  }

  lemma AnswersCompared(receiver: MulReceiver, sid: Bytes, kept: MulDataToKeepReceiver, a: MulDataToReceiver, b: MulDataToReceiver)
    requires WellShaped(a) && WellShaped(b) && |kept.choice_bits| == 416 && |kept.extended_seeds| == 256
    ensures CheckedBytes(sid, kept, b) == CheckedBytes(sid, kept, a) <==> ErrorsCancel(kept, a, b)
    ensures var r, r' := MulReceiverRun2(receiver, sid, kept, a), MulReceiverRun2(receiver, sid, kept, b);
      && (r'.Ok? <==> b.verify_r == TaggedHash(TAG_MUL_VERIFY, [sid, CheckedBytes(sid, kept, b)]))
      && (r'.Err? ==> r'.error == WrongMatrix)
      && (r.Ok? && r'.Ok? ==>
           |r.value| == |r'.value| == 2 && forall i :: 0 <= i < 2 ==> r'.value[i] == Add(r.value[i], ShareError(receiver, kept, a, b, i)))
  {
    hide MulReceiverRun2, Recomputed, ReceiverRun2, MatrixBytes, GadgetSum, ShareError, ErrorsCancel;
    MulReceiverDecides(receiver, sid, kept, a);
    MulReceiverDecides(receiver, sid, kept, b);
    SizesFit(sid, kept, a);
    SizesFit(sid, kept, b);
    var z, z' := OutputsFor(sid, kept, a), OutputsFor(sid, kept, b);
    MatrixUnchanged(sid, kept, a, b);
    RecomputedShape(kept, z, a.verify_u);
    RecomputedShape(kept, z', b.verify_u);
    MatrixInjective(Recomputed(kept, z', b.verify_u), Recomputed(kept, z, a.verify_u));
    SharesDiffer(receiver, sid, kept, a, b, 0);
    SharesDiffer(receiver, sid, kept, a, b, 1);
  }

  /** What arrives at the receiver of an honest run. */
  lemma HonestAnswer(sender: MulSender, receiver: MulReceiver, sid: Bytes, input: seq<Scalar>, a_tilde: seq<Scalar>,
                     a_hat: seq<Scalar>, choice_bits: seq<bool>, noise: seq<bool>)
    requires Paired(sender, receiver)
    requires |input| == |a_tilde| == |a_hat| == L && |choice_bits| == BATCH_SIZE && |noise| == OT_SECURITY
    ensures var first := MulReceiverRun1(receiver, sid, choice_bits, noise);
      && first.Ok?
      && var kept := first.value.1;
      && kept.b == first.value.0 && |kept.choice_bits| == 416 && |kept.extended_seeds| == 256
      && var sent := MulSenderRun(sender, sid, input, first.value.2, a_tilde, a_hat);
      && sent.Ok? && WellShaped(sent.value.1) && MulReceiverRun2(receiver, sid, kept, sent.value.1).Ok?
      && sent.value.1.verify_r == TaggedHash(TAG_MUL_VERIFY, [sid, CheckedBytes(sid, kept, sent.value.1)])
  {
    hide MulReceiverRun1, MulSenderRun, MulReceiverRun2, Recomputed, ReceiverRun2, MatrixBytes, GadgetSum;
    MultiplicationCorrect(sender, receiver, sid, input, a_tilde, a_hat, choice_bits, noise);
    var first := MulReceiverRun1(receiver, sid, choice_bits, noise);
    var kept, a := first.value.1, MulSenderRun(sender, sid, input, first.value.2, a_tilde, a_hat).value.1;
    MulReceiverSends(receiver, sid, choice_bits, noise);
    MulReceiverDecides(receiver, sid, kept, a);
    SizesFit(sid, kept, a);
  }

  /** Whatever well-shaped message arrives in place of an honest sender's: the bytes whose hash is compared are the honest
      ones exactly if the errors cancel, so an unchanged verify_r is accepted if they do and otherwise only on a collision of
      the hash; and the shares of an accepted message add up to input_i * b plus the error of the share. */
  lemma TamperedMessageDecides(sender: MulSender, receiver: MulReceiver, sid: Bytes, input: seq<Scalar>, a_tilde: seq<Scalar>,
                               a_hat: seq<Scalar>, choice_bits: seq<bool>, noise: seq<bool>, b: MulDataToReceiver)
    requires Paired(sender, receiver)
    requires |input| == |a_tilde| == |a_hat| == L && |choice_bits| == BATCH_SIZE && |noise| == OT_SECURITY
    requires WellShaped(b)
    ensures var first := MulReceiverRun1(receiver, sid, choice_bits, noise);
      && first.Ok?
      && var kept := first.value.1;
      && kept.b == first.value.0 && |kept.choice_bits| == 416 && |kept.extended_seeds| == 256
      && var sent := MulSenderRun(sender, sid, input, first.value.2, a_tilde, a_hat);
      && sent.Ok? && WellShaped(sent.value.1)
      && var (a, r) := (sent.value.1, MulReceiverRun2(receiver, sid, kept, b));
      && a.verify_r == TaggedHash(TAG_MUL_VERIFY, [sid, CheckedBytes(sid, kept, a)])
      && (CheckedBytes(sid, kept, b) == CheckedBytes(sid, kept, a) <==> ErrorsCancel(kept, a, b))
      && (r.Ok? <==> b.verify_r == TaggedHash(TAG_MUL_VERIFY, [sid, CheckedBytes(sid, kept, b)]))
      && (r.Err? ==> r.error == WrongMatrix)
      && (r.Ok? ==> forall i :: 0 <= i < 2 ==>
            Add(sent.value.0[i], r.value[i]) == Add(Mul(input[i], kept.b), ShareError(receiver, kept, a, b, i)))
  {
    hide MulReceiverRun1, MulSenderRun, MulReceiverRun2, CheckedBytes, WellShaped, ShareError, ErrorsCancel;
    MultiplicationCorrect(sender, receiver, sid, input, a_tilde, a_hat, choice_bits, noise);
    HonestAnswer(sender, receiver, sid, input, a_tilde, a_hat, choice_bits, noise);
    var first := MulReceiverRun1(receiver, sid, choice_bits, noise);
    var kept, sent := first.value.1, MulSenderRun(sender, sid, input, first.value.2, a_tilde, a_hat);
    var a := sent.value.1;
    AnswersCompared(receiver, sid, kept, a, b);
    var r := MulReceiverRun2(receiver, sid, kept, a);
    AddAssoc(sent.value.0[0], r.value[0], ShareError(receiver, kept, a, b, 0));
    AddAssoc(sent.value.0[1], r.value[1], ShareError(receiver, kept, a, b, 1));
  }

  lemma SetBitDecides(kept: MulDataToKeepReceiver, a: MulDataToReceiver, b: MulDataToReceiver)
    requires WellShaped(a) && WellShaped(b) && |kept.choice_bits| == 416
    requires forall i, j, k :: 0 <= i < 2 && 0 <= j < 416 && 0 <= k < 416 && CancelAt(kept, a, b, i, j) ==> CancelAt(kept, a, b, i, k)
    ensures ErrorsCancel(kept, a, b) <==>
      || (forall j :: 0 <= j < 416 ==> !kept.choice_bits[j])
      || (CancelAt(kept, a, b, 0, 0) && CancelAt(kept, a, b, 1, 0))
  {
    hide CancelAt;
    if j :| 0 <= j < 416 && kept.choice_bits[j] {
      assert ErrorsCancel(kept, a, b) ==> CancelAt(kept, a, b, 0, j) && CancelAt(kept, a, b, 1, j);
    }
  }

  /** Other check values alone cancel only if no choice bit is set. */
  lemma TamperedChecksDecide(kept: MulDataToKeepReceiver, a: MulDataToReceiver, u: seq<Scalar>)
    requires WellShaped(a) && |u| == 2 && |kept.choice_bits| == 416
    ensures ErrorsCancel(kept, a, a.(verify_u := u)) <==> u == a.verify_u || forall j :: 0 <= j < 416 ==> !kept.choice_bits[j]
  {
    hide Add, Mul, Neg, Sub;
    var b := a.(verify_u := u);
    forall i, j | 0 <= i < 2 && 0 <= j < 416 ensures CancelAt(kept, a, b, i, j) <==> u[i] == a.verify_u[i] {
      Identities(a.vector_of_tau[i][j]);
      Identities(a.vector_of_tau[2 + i][j]);
      Identities(kept.chi_tilde[i]);
      Identities(kept.chi_hat[i]);
      Identities(0);
      SameDifference(u[i], a.verify_u[i]);
    }
    SetBitDecides(kept, a, b);
  }

  /** The same error c in every correction cancels exactly if no choice bit is set or c (chi~_i + chi^_i) is zero for both i;
      accepted, it shifts every share by c times the sum of the gadget entries at the set choice bits. */
  lemma ShiftedCorrectionsDecide(receiver: MulReceiver, kept: MulDataToKeepReceiver, a: MulDataToReceiver, b: MulDataToReceiver,
                                 c: Scalar)
    requires WellShaped(a) && WellShaped(b) && |kept.choice_bits| == 416
    requires b.verify_u == a.verify_u && b.gamma_sender == a.gamma_sender
    requires forall i, j :: 0 <= i < 4 && 0 <= j < 416 ==> b.vector_of_tau[i][j] == Add(a.vector_of_tau[i][j], c)
    ensures ErrorsCancel(kept, a, b) <==>
      || (forall j :: 0 <= j < 416 ==> !kept.choice_bits[j])
      || (forall i :: 0 <= i < 2 ==> Mul(c, Add(kept.chi_tilde[i], kept.chi_hat[i])) == 0)
    ensures forall i :: 0 <= i < 2 ==>
      ShareError(receiver, kept, a, b, i)
      == Mul(c, Sum(seq<Scalar>(416, j requires 0 <= j < 416 => if kept.choice_bits[j] then receiver.public_gadget[j] else 0)))
  {
    hide Add, Mul, Neg, Sub;
    forall i, j | 0 <= i < 4 && 0 <= j < 416 ensures TauError(a, b, i, j) == c {
      AddedIsDifference(a.vector_of_tau[i][j], c);
    }
    forall i, j | 0 <= i < 2 && 0 <= j < 416
      ensures CancelAt(kept, a, b, i, j) <==> Mul(c, Add(kept.chi_tilde[i], kept.chi_hat[i])) == 0
    {
      Identities(a.verify_u[i]);
      Distribute(c, kept.chi_tilde[i], kept.chi_hat[i]);
      Commute(c, kept.chi_tilde[i]);
      Commute(c, kept.chi_hat[i]);
    }
    SetBitDecides(kept, a, b);
    var s := seq<Scalar>(416, j requires 0 <= j < 416 => if kept.choice_bits[j] then receiver.public_gadget[j] else 0);
    SumScaled(c, s);
    forall i | 0 <= i < 2 ensures ShareError(receiver, kept, a, b, i) == Mul(c, Sum(s)) {
      var e := seq<Scalar>(416, j requires 0 <= j < 416 =>
        if kept.choice_bits[j] then Mul(receiver.public_gadget[j], TauError(a, b, i, j)) else 0);
      forall j | 0 <= j < 416 ensures e[j] == Scaled(c, s)[j] {
        Commute(c, s[j]);
        Identities(c);
      }
      assert e == Scaled(c, s);
      Identities(a.gamma_sender[i]);
      Identities(kept.b);
      Commute(0, Sum(s));
      LeftZero(Sum(e));
    }
  }

  lemma AddedIsDifference(x: Scalar, c: Scalar)
    ensures Sub(Add(x, c), x) == c
  {
    var x': int, c': int := x, c;
    OfScalar(x); OfScalar(c);
    OfAdd(x', c'); OfNeg(x'); OfAdd((x' + c'), (-x'));
    assert (x' + c') + (-x') == c';
  }
}
