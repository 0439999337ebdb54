/** What the two ends of the multiplication send, accept and output, entry by entry, and what they reject. */
module MultiplicationAcceptance {
  import opened Outcomes
  import opened PrimeField
  import opened Sums
  import opened Hashes
  import opened Curve
  import opened OracleTags
  import opened PackedBits
  import opened BinaryField
  import opened Transpose
  import opened OTExtension
  import opened OTAcceptance
  import opened Multiplication

  // The public values

  lemma {:induction false} CounterIs(nonce: Scalar, i: nat)
    ensures Counter(nonce, i) == Of(nonce + i)
  {
    OfScalar(nonce);
    OfScalar(1);
    if i > 0 {
      CounterIs(nonce, i - 1);
      OfAdd(nonce + (i - 1), 1);
    }
  }

  /** Entry i of the gadget is the hash of nonce + i + 1. */
  lemma GadgetIs(sid: Bytes, nonce: Scalar, i: nat)
    requires i < 416
    ensures Gadget(sid, nonce)[i] == TaggedScalar(TAG_MUL_GADGET, [sid, ScalarBytes(Of(nonce + i + 1))])
  {
    CounterIs(nonce, i + 1);
    assert nonce + (i + 1) == nonce + i + 1;
  }

  /** The weights of row i: two hashes of everything that the receiver sent. */
  ghost function Weight(tag: Bytes, sid: Bytes, data: OTEDataToSender, i: nat): Scalar {
    TaggedScalar(tag, [sid, BigEndian(i, 1), Concat(data.u) + data.verify_x + ConcatElements(data.verify_t)])
  }

  lemma WeightIs(sid: Bytes, data: OTEDataToSender, i: nat)
    requires i < 2
    ensures Chis(TAG_MUL_CHI_TILDE, sid, Transcript(data))[i] == Weight(TAG_MUL_CHI_TILDE, sid, data, i)
    ensures Chis(TAG_MUL_CHI_HAT, sid, Transcript(data))[i] == Weight(TAG_MUL_CHI_HAT, sid, data, i)
  {
    hide Concat, ConcatElements;
  }

  /** The gadget-weighted sum of one row. */
  ghost function GadgetSum(g: seq<Scalar>, row: seq<Scalar>): Scalar
    requires |g| == |row|
  {
    Sum(seq<Scalar>(|g|, j requires 0 <= j < |g| => Mul(g[j], row[j])))
  }

  lemma GadgetSumIs(g: seq<Scalar>, row: seq<Scalar>)
    requires |g| == |row|
    ensures Dot(g, row) == GadgetSum(g, row)
  {
    hide Sum;
    assert Products(g, row) == seq<Scalar>(|g|, j requires 0 <= j < |g| => Mul(g[j], row[j]));
  }

  // The receiver's first phase

  /** The receiver's factor is the sum of the gadget entries at its set choice bits; it keeps its choices and the weights. */
  lemma MulReceiverSends(receiver: MulReceiver, sid: Bytes, choice_bits: seq<bool>, noise: seq<bool>)
    requires |choice_bits| == BATCH_SIZE && |noise| == OT_SECURITY
    ensures var first := ReceiverRun1(receiver.ote_receiver, Ascii("OT Extension protocol") + sid, choice_bits, noise);
      var r := MulReceiverRun1(receiver, sid, choice_bits, noise);
      && (r.Ok? <==> first.Ok?) && (r.Err? ==> r.error == ExtensionFailed(first.error))
      && (r.Ok? ==>
           && r.value.2 == first.value.1 && r.value.1.extended_seeds == first.value.0 && r.value.1.choice_bits == choice_bits
           && r.value.0 == r.value.1.b
              == Sum(seq<Scalar>(416, j requires 0 <= j < 416 => if choice_bits[j] then receiver.public_gadget[j] else 0))
           && forall i :: 0 <= i < 2 ==>
                && r.value.1.chi_tilde[i] == Weight(TAG_MUL_CHI_TILDE, sid, first.value.1, i)
                && r.value.1.chi_hat[i] == Weight(TAG_MUL_CHI_HAT, sid, first.value.1, i))
  {
    hide ReceiverRun1, Sum, Weight, Chis, Transcript;
    var first := ReceiverRun1(receiver.ote_receiver, Ascii("OT Extension protocol") + sid, choice_bits, noise);
    assert Selected(receiver.public_gadget, choice_bits)
        == seq<Scalar>(416, j requires 0 <= j < 416 => if choice_bits[j] then receiver.public_gadget[j] else 0);
    if first.Ok? {
      forall i | 0 <= i < 2
        ensures Chis(TAG_MUL_CHI_TILDE, sid, Transcript(first.value.1))[i] == Weight(TAG_MUL_CHI_TILDE, sid, first.value.1, i)
        ensures Chis(TAG_MUL_CHI_HAT, sid, Transcript(first.value.1))[i] == Weight(TAG_MUL_CHI_HAT, sid, first.value.1, i)
      {
        WeightIs(sid, first.value.1, i);
      }
    }
  }

  // The sender

  /** The correlations of the OT extension: 416 copies of each pad and of each check value. */
  ghost predicate IsCopies(inputs: Outputs, a_tilde: seq<Scalar>, a_hat: seq<Scalar>)
    requires |a_tilde| == |a_hat| == 2
  {
    && |inputs| == 4 && (forall i :: 0 <= i < 4 ==> |inputs[i]| == 416)
    && forall i, j :: 0 <= i < 4 && 0 <= j < 416 ==> inputs[i][j] == if i < 2 then a_tilde[i] else a_hat[i - 2]
  }

  lemma CopiesAre(inputs: Outputs, a_tilde: seq<Scalar>, a_hat: seq<Scalar>)
    requires |a_tilde| == |a_hat| == 2 && IsCopies(inputs, a_tilde, a_hat)
    ensures inputs == Copies(a_tilde) + Copies(a_hat)
  {
    var c := Copies(a_tilde) + Copies(a_hat);
    forall i | 0 <= i < 4 ensures inputs[i] == c[i] {
      if i < 2 {
        assert c[i] == Copies(a_tilde)[i];
      } else {
        assert c[i] == Copies(a_hat)[i - 2];
      }
    }
  }

  /** The matrix whose hash is sent: entry (i, j) is chi~_i z~_ij + chi^_i z^_ij. */
  ghost predicate IsSentMatrix(m: seq<seq<Scalar>>, sid: Bytes, data: OTEDataToSender, z: Outputs)
    requires Shape(z)
  {
    && |m| == 2 && (forall i :: 0 <= i < 2 ==> |m[i]| == 416)
    && forall i, j :: 0 <= i < 2 && 0 <= j < 416 ==>
         m[i][j] == Add(Mul(Weight(TAG_MUL_CHI_TILDE, sid, data, i), z[i][j]), Mul(Weight(TAG_MUL_CHI_HAT, sid, data, i), z[2 + i][j]))
  }

  lemma SentMatrixIs(m: seq<seq<Scalar>>, sid: Bytes, data: OTEDataToSender, z: Outputs)
    requires Shape(z) && IsSentMatrix(m, sid, data, z)
    ensures m == SenderMatrix(Chis(TAG_MUL_CHI_TILDE, sid, Transcript(data)), Chis(TAG_MUL_CHI_HAT, sid, Transcript(data)), z)
  {
    hide Weight, Chis, Transcript;
    var s := SenderMatrix(Chis(TAG_MUL_CHI_TILDE, sid, Transcript(data)), Chis(TAG_MUL_CHI_HAT, sid, Transcript(data)), z);
    forall i | 0 <= i < 2 ensures m[i] == s[i] {
      WeightIs(sid, data, i);
    }
  }

  /** The sender goes on just when the OT extension accepts; its outputs are gadget sums, and its message has the corrections
      tau, the hash of the weighted matrix, the weighted check values, and the inputs minus the pads. */
  lemma MulSenderSends(sender: MulSender, sid: Bytes, input: seq<Scalar>, data: OTEDataToSender, a_tilde: seq<Scalar>,
                       a_hat: seq<Scalar>, inputs: Outputs, m: seq<seq<Scalar>>)
    requires |input| == |a_tilde| == |a_hat| == L && IsCopies(inputs, a_tilde, a_hat)
    ensures var sent := SenderRun(sender.ote_sender, Ascii("OT Extension protocol") + sid, 4, inputs, data);
      var r := MulSenderRun(sender, sid, input, data, a_tilde, a_hat);
      && (r.Ok? <==> sent.Ok?) && (r.Err? ==> r.error == ExtensionFailed(sent.error))
      && (r.Ok? && IsSentMatrix(m, sid, data, sent.value.0) ==>
           var (outputs, msg) := r.value;
           && msg.vector_of_tau == sent.value.1 && msg.verify_r == TaggedHash(TAG_MUL_VERIFY, [sid, MatrixBytes(m)])
           && |outputs| == |msg.verify_u| == |msg.gamma_sender| == 2
           && forall i :: 0 <= i < 2 ==>
                && outputs[i] == GadgetSum(sender.public_gadget, sent.value.0[i])
                && msg.verify_u[i] == Add(Mul(Weight(TAG_MUL_CHI_TILDE, sid, data, i), a_tilde[i]),
                                          Mul(Weight(TAG_MUL_CHI_HAT, sid, data, i), a_hat[i]))
                && msg.gamma_sender[i] == Sub(input[i], a_tilde[i]))
  {
    hide SenderRun, Weight, Chis, Transcript, Dot, GadgetSum, MatrixBytes, SenderMatrix, IsSentMatrix;
    CopiesAre(inputs, a_tilde, a_hat);
    var sent := SenderRun(sender.ote_sender, Ascii("OT Extension protocol") + sid, 4, inputs, data);
    if sent.Ok? && IsSentMatrix(m, sid, data, sent.value.0) {
      SentMatrixIs(m, sid, data, sent.value.0);
      forall i | 0 <= i < 2
        ensures Chis(TAG_MUL_CHI_TILDE, sid, Transcript(data))[i] == Weight(TAG_MUL_CHI_TILDE, sid, data, i)
        ensures Chis(TAG_MUL_CHI_HAT, sid, Transcript(data))[i] == Weight(TAG_MUL_CHI_HAT, sid, data, i)
        ensures Dot(sender.public_gadget, sent.value.0[i]) == GadgetSum(sender.public_gadget, sent.value.0[i])
      {
        WeightIs(sid, data, i);
        GadgetSumIs(sender.public_gadget, sent.value.0[i]);
      }
    }
  }

  // The receiver's second phase

  /** The matrix that the receiver recomputes: entry (i, j) is -chi~_i z~_ij - chi^_i z^_ij, plus u_i where choice bit j is
      set. */
  ghost function Recomputed(kept: MulDataToKeepReceiver, z: Outputs, u: seq<Scalar>): seq<seq<Scalar>>
    requires |u| == 2 && Shape(z) && |kept.choice_bits| == 416
  {
    seq(2, i requires 0 <= i < 2 =>
      seq<Scalar>(416, j requires 0 <= j < 416 =>
        var e := Neg(Add(Mul(kept.chi_tilde[i], z[i][j]), Mul(kept.chi_hat[i], z[2 + i][j])));
        if kept.choice_bits[j] then Add(e, u[i]) else e))
  }

  lemma RecomputedIs(kept: MulDataToKeepReceiver, z: Outputs, u: seq<Scalar>)
    requires |u| == 2 && Shape(z) && |kept.choice_bits| == 416
    ensures ReceiverMatrix(kept, z, u) == Recomputed(kept, z, u)
  {
    forall i | 0 <= i < 2 ensures ReceiverMatrix(kept, z, u)[i] == Recomputed(kept, z, u)[i] {
      forall j | 0 <= j < 416 ensures ReceiverMatrix(kept, z, u)[i][j] == Recomputed(kept, z, u)[i][j] {
        NegPair(Mul(kept.chi_tilde[i], z[i][j]), Mul(kept.chi_hat[i], z[2 + i][j]));
      }
    }
  }

  lemma NegPair(s: Scalar, t: Scalar)
    ensures Sub(Neg(s), t) == Neg(Add(s, t))
  {
    Ring();
  }

  /** The receiver accepts just when the sizes fit and verify_r is the hash of the recomputed matrix; its shares are
      b * gamma_i plus the gadget sums. */
  lemma MulReceiverDecides(receiver: MulReceiver, sid: Bytes, kept: MulDataToKeepReceiver, received: MulDataToReceiver)
    ensures var z := ReceiverRun2(Ascii("OT Extension protocol") + sid, 4, kept.choice_bits, kept.extended_seeds, received.vector_of_tau);
      var r := MulReceiverRun2(receiver, sid, kept, received);
      && (r.Ok? <==>
           && |received.verify_u| == |received.gamma_sender| == 2 && z.Ok?
           && received.verify_r == TaggedHash(TAG_MUL_VERIFY, [sid, MatrixBytes(Recomputed(kept, z.value, received.verify_u))]))
      && (r.Ok? ==>
           |r.value| == 2 && forall i :: 0 <= i < 2 ==>
             r.value[i] == Add(Mul(kept.b, received.gamma_sender[i]), GadgetSum(receiver.public_gadget, z.value[i])))
      && (r.Err? ==>
           r.error == if !(|received.verify_u| == |received.gamma_sender| == 2) then WrongMessage
                      else if z.Err? then ExtensionFailed(z.error) else WrongMatrix)
  {
    hide ReceiverRun2, MatrixBytes, ReceiverMatrix, Recomputed, Dot, GadgetSum;
    var z := ReceiverRun2(Ascii("OT Extension protocol") + sid, 4, kept.choice_bits, kept.extended_seeds, received.vector_of_tau);
    if |received.verify_u| == |received.gamma_sender| == 2 && z.Ok? {
      RecomputedIs(kept, z.value, received.verify_u);
      forall i | 0 <= i < 2
        ensures Dot(receiver.public_gadget, z.value[i]) == GadgetSum(receiver.public_gadget, z.value[i])
      {
        GadgetSumIs(receiver.public_gadget, z.value[i]);
      }
    }
  }

  // Tampering with an honest run

  /** An honest run in which another verify_r arrives is rejected. */
  lemma TamperedHashRejected(sender: MulSender, receiver: MulReceiver, sid: Bytes, input: seq<Scalar>, a_tilde: seq<Scalar>,
                             a_hat: seq<Scalar>, choice_bits: seq<bool>, noise: seq<bool>, h: HashOutput)
    requires Paired(sender, receiver)
    requires |input| == |a_tilde| == |a_hat| == L && |choice_bits| == BATCH_SIZE && |noise| == OT_SECURITY
    ensures var first := MulReceiverRun1(receiver, sid, choice_bits, noise);
      && first.Ok?
      && var sent := MulSenderRun(sender, sid, input, first.value.2, a_tilde, a_hat);
      && sent.Ok?
      && (h != sent.value.1.verify_r ==>
           MulReceiverRun2(receiver, sid, first.value.1, sent.value.1.(verify_r := h)) == Err(WrongMatrix))
  {
    hide MulReceiverRun1, MulSenderRun, MulReceiverRun2, Recomputed, ReceiverRun2;
    MultiplicationCorrect(sender, receiver, sid, input, a_tilde, a_hat, choice_bits, noise);
    var first := MulReceiverRun1(receiver, sid, choice_bits, noise);
    var sent := MulSenderRun(sender, sid, input, first.value.2, a_tilde, a_hat);
    MulReceiverDecides(receiver, sid, first.value.1, sent.value.1);
    MulReceiverDecides(receiver, sid, first.value.1, sent.value.1.(verify_r := h));
  }

  /** An honest receiver's message with another verify_t is rejected. */
  lemma TamperedCheckRejected(sender: MulSender, receiver: MulReceiver, sid: Bytes, input: seq<Scalar>, a_tilde: seq<Scalar>,
                              a_hat: seq<Scalar>, choice_bits: seq<bool>, noise: seq<bool>, t: seq<FieldElement>)
    requires Paired(sender, receiver)
    requires |input| == |a_tilde| == |a_hat| == L && |choice_bits| == BATCH_SIZE && |noise| == OT_SECURITY
    ensures var first := MulReceiverRun1(receiver, sid, choice_bits, noise);
      && first.Ok?
      && (t != first.value.2.verify_t ==>
           MulSenderRun(sender, sid, input, first.value.2.(verify_t := t), a_tilde, a_hat)
           == Err(ExtensionFailed(if |t| == KAPPA then ConsistencyCheckFailed else WrongData)))
  {
    hide SenderRun, Kept, Pad, ReceiverData;
    var first := MulReceiverRun1(receiver, sid, choice_bits, noise);
    var data := first.value.2;
    assert data == ReceiverData(OteSid(sid), receiver.ote_receiver, Pack(choice_bits + noise));
    assert Honest(receiver.ote_receiver, OteSid(sid), data);
    if t != data.verify_t {
      TamperedTRejected(sender.ote_sender, receiver.ote_receiver, OteSid(sid), Copies(a_tilde) + Copies(a_hat), data, t);
    }
  }
}
