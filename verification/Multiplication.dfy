/** Two-party multiplication: from OT extension outputs to additive shares of input_i * b. */
module Multiplication {
  import opened Outcomes
  import opened PrimeField
  import opened Sums
  import opened Polynomials
  import opened Hashes
  import opened Curve
  import opened OracleTags
  import opened Proofs
  import opened BaseOT
  import opened Transpose
  import opened BinaryField
  import opened OTExtension

  const L: nat := 2
  const OT_WIDTH: nat := 2 * L

  datatype MulSenderFields = MulSenderFields(public_gadget: seq<Scalar>, ote_sender: OTESender)

  datatype MulReceiverFields = MulReceiverFields(public_gadget: seq<Scalar>, ote_receiver: OTEReceiver)

  /** Every constructor of the two states fills the gadget completely. */
  type MulSender = s: MulSenderFields | |s.public_gadget| == BATCH_SIZE
    witness MulSenderFields(seq(BATCH_SIZE, _ => 0), OTESender([], []))

  type MulReceiver = r: MulReceiverFields | |r.public_gadget| == BATCH_SIZE
    witness MulReceiverFields(seq(BATCH_SIZE, _ => 0), OTEReceiver([], []))

  datatype MulDataToReceiver = MulDataToReceiver(
    vector_of_tau: Outputs, verify_r: HashOutput, verify_u: seq<Scalar>, gamma_sender: seq<Scalar>)

  datatype MulKeepFields = MulKeepFields(
    b: Scalar, choice_bits: seq<bool>, extended_seeds: seq<PRGOutput>, chi_tilde: seq<Scalar>, chi_hat: seq<Scalar>)

  /** Phase 1 of the receiver always keeps L weights of each kind. */
  type MulDataToKeepReceiver = k: MulKeepFields | |k.chi_tilde| == |k.chi_hat| == L
    witness MulKeepFields(0, [], [], [0, 0], [0, 0])

  datatype MulError = ExtensionFailed(error: OTEError) | WrongMessage | WrongMatrix

  /** The two ends of one pair of parties: same gadget, matching OT seeds. */
  predicate Paired(sender: MulSender, receiver: MulReceiver) {
    && sender.public_gadget == receiver.public_gadget
    && Matching(sender.ote_sender, receiver.ote_receiver)
  }

  // Initialization

  /** Entry i of the gadget: the hash of nonce + i + 1. */
  function GadgetEntry(sid: Bytes, counter: Scalar): Scalar {
    TaggedScalar(TAG_MUL_GADGET, [sid, ScalarBytes(counter)])
  }

  function Counter(nonce: Scalar, i: nat): Scalar {
    if i == 0 then nonce else Add(Counter(nonce, i - 1), 1)
  }

  function Gadget(sid: Bytes, nonce: Scalar): (g: seq<Scalar>)
    ensures |g| == BATCH_SIZE
  {
    seq(BATCH_SIZE, i requires 0 <= i < BATCH_SIZE => GadgetEntry(sid, Counter(nonce, i + 1)))
  }

  method ComputeGadget(sid: Bytes, nonce: Scalar) returns (public_gadget: seq<Scalar>)
    ensures public_gadget == Gadget(sid, nonce)
  {
    public_gadget := [];
    var counter := nonce;
    for i := 0 to BATCH_SIZE
      invariant |public_gadget| == i && counter == Counter(nonce, i)
      invariant forall k :: 0 <= k < i ==> public_gadget[k] == GadgetEntry(sid, Counter(nonce, k + 1))
    {
      counter := Add(counter, 1);
      public_gadget := public_gadget + [GadgetEntry(sid, counter)];
    }
  }

  ghost function MulSenderOf(sid: Bytes, correlation: seq<bool>, vec_r: seq<Scalar>, dlog_proof: DLogProof, nonce: Scalar)
    : Result<MulSender, OTError>
  {
    var ote := SenderOf(sid, correlation, vec_r, dlog_proof);
    if ote.Err? then Err(ote.error) else Ok(MulSenderFields(Gadget(sid, nonce), ote.value))
  }

  /** MulSender::init_phase2 */
  method InitMulSender(sid: Bytes, correlation: seq<bool>, vec_r: seq<Scalar>, dlog_proof: DLogProof, nonce: Scalar)
    returns (r: Result<MulSender, OTError>)
    ensures r == MulSenderOf(sid, correlation, vec_r, dlog_proof, nonce)
  {
    var ote := InitSender(sid, correlation, vec_r, dlog_proof);
    if ote.Err? {
      return Err(ote.error);
    }
    var public_gadget := ComputeGadget(sid, nonce);
    return Ok(MulSenderFields(public_gadget, ote.value));
  }

  function MulReceiverOf(s: Scalar, sid: Bytes, seed: Seed, proofs: seq<EncProof>, nonce: Scalar): Result<MulReceiver, OTError> {
    var ote := ReceiverOf(s, sid, seed, proofs);
    if ote.Err? then Err(ote.error) else Ok(MulReceiverFields(Gadget(sid, nonce), ote.value))
  }

  /** MulReceiver::init_phase2 */
  method InitMulReceiver(s: Scalar, sid: Bytes, seed: Seed, proofs: seq<EncProof>, nonce: Scalar)
    returns (r: Result<MulReceiver, OTError>)
    ensures r == MulReceiverOf(s, sid, seed, proofs, nonce)
  {
    var ote := InitReceiver(s, sid, seed, proofs);
    if ote.Err? {
      return Err(ote.error);
    }
    var public_gadget := ComputeGadget(sid, nonce);
    return Ok(MulReceiverFields(public_gadget, ote.value));
  }

  /** Honest initialization pairs the two ends. */
  lemma InitPaired(s: Scalar, sid: Bytes, seed: Seed, correlation: seq<bool>, draws: seq<ReceiverDraw>,
                   dlog_proof: DLogProof, nonce: Scalar)
    requires |draws| == |correlation| == KAPPA
    requires dlog_proof.point == Base(s) && DLogAccepts(dlog_proof, sid)
    ensures var sender := MulSenderOf(sid, correlation, Nonces(draws), dlog_proof, nonce);
      var receiver := MulReceiverOf(s, sid, seed, ReceiverProofs(seed, sid, correlation, draws), nonce);
      sender.Ok? && receiver.Ok? && Paired(sender.value, receiver.value)
  {
    hide DLogAccepts, Matching, SenderOf, ReceiverOf, Gadget;
    InitMatching(s, sid, seed, correlation, draws, dlog_proof);
  }

  // Shared values

  function OteSid(sid: Bytes): Bytes {
    Ascii("OT Extension protocol") + sid
  }

  function ConcatElements(rows: seq<FieldElement>): Bytes {
    if rows == [] then [] else rows[0] + ConcatElements(rows[1..])
  }

  function Transcript(data: OTEDataToSender): Bytes {
    Concat(data.u) + data.verify_x + ConcatElements(data.verify_t)
  }

  function ChiEntry(tag: Bytes, sid: Bytes, i: nat, transcript: Bytes): Scalar {
    TaggedScalar(tag, [sid, BigEndian(i, 1), transcript])
  }

  /** The pseudo-random weights of one check. */
  function Chis(tag: Bytes, sid: Bytes, transcript: Bytes): (c: seq<Scalar>)
    ensures |c| == L
  {
    seq(L, i requires 0 <= i < L => ChiEntry(tag, sid, i, transcript))
  }

  method ComputeChis(sid: Bytes, transcript: Bytes) returns (chi_tilde: seq<Scalar>, chi_hat: seq<Scalar>)
    ensures chi_tilde == Chis(TAG_MUL_CHI_TILDE, sid, transcript)
    ensures chi_hat == Chis(TAG_MUL_CHI_HAT, sid, transcript)
  {
    hide ChiEntry;
    chi_tilde, chi_hat := [], [];
    for i := 0 to L
      invariant |chi_tilde| == |chi_hat| == i
      invariant forall k :: 0 <= k < i ==> chi_tilde[k] == ChiEntry(TAG_MUL_CHI_TILDE, sid, k, transcript)
      invariant forall k :: 0 <= k < i ==> chi_hat[k] == ChiEntry(TAG_MUL_CHI_HAT, sid, k, transcript)
    {
      chi_tilde := chi_tilde + [ChiEntry(TAG_MUL_CHI_TILDE, sid, i, transcript)];
      chi_hat := chi_hat + [ChiEntry(TAG_MUL_CHI_HAT, sid, i, transcript)];
    }
  }

  function RowBytes(row: seq<Scalar>): Bytes {
    if row == [] then [] else RowBytes(row[..|row| - 1]) + ScalarBytes(row[|row| - 1])
  }

  function MatrixBytes(r: seq<seq<Scalar>>): Bytes {
    if r == [] then [] else MatrixBytes(r[..|r| - 1]) + RowBytes(r[|r| - 1])
  }

  /** The hash of the matrix r. */
  function MatrixHash(sid: Bytes, r: seq<seq<Scalar>>): HashOutput {
    TaggedHash(TAG_MUL_VERIFY, [sid, MatrixBytes(r)])
  }

  function Products(g: seq<Scalar>, z: seq<Scalar>): (p: seq<Scalar>)
    requires |g| == |z|
    ensures |p| == |g|
  {
    seq(|g|, j requires 0 <= j < |g| => Mul(g[j], z[j]))
  }

  function Dot(g: seq<Scalar>, z: seq<Scalar>): Scalar
    requires |g| == |z|
  {
    Sum(Products(g, z))
  }

  method DotOf(g: seq<Scalar>, z: seq<Scalar>) returns (summation: Scalar)
    requires |g| == |z|
    ensures summation == Dot(g, z)
  {
    summation := 0;
    for j := 0 to |g|
      invariant summation == Sum(Products(g, z)[..j])
    {
      summation := Add(summation, Mul(g[j], z[j]));
      assert Products(g, z)[..j + 1][..j] == Products(g, z)[..j];
    }
    assert Products(g, z)[..|g|] == Products(g, z);
  }

  // Sender

  /** BATCH_SIZE copies of each value. */
  function Copies(a: seq<Scalar>): (c: Outputs)
    ensures |c| == |a| && InnerLengths(c)
  {
    seq(|a|, i requires 0 <= i < |a| => seq(BATCH_SIZE, _ => a[i]))
  }

  /** The weighted sum of two rows. */
  function SenderRow(chi_tilde: Scalar, z_tilde: seq<Scalar>, chi_hat: Scalar, z_hat: seq<Scalar>): (r: seq<Scalar>)
    requires |z_tilde| == |z_hat|
    ensures |r| == |z_tilde|
  {
    seq(|z_tilde|, j requires 0 <= j < |z_tilde| => Add(Mul(chi_tilde, z_tilde[j]), Mul(chi_hat, z_hat[j])))
  }

  method SenderRowBytes(chi_tilde: Scalar, z_tilde: seq<Scalar>, chi_hat: Scalar, z_hat: seq<Scalar>) returns (bytes: Bytes)
    requires |z_tilde| == |z_hat|
    ensures bytes == RowBytes(SenderRow(chi_tilde, z_tilde, chi_hat, z_hat))
  {
    ghost var row := SenderRow(chi_tilde, z_tilde, chi_hat, z_hat);
    bytes := [];
    for j := 0 to |z_tilde|
      invariant bytes == RowBytes(row[..j])
    {
      var entry := Add(Mul(chi_tilde, z_tilde[j]), Mul(chi_hat, z_hat[j]));
      bytes := bytes + ScalarBytes(entry);
      assert row[..j + 1][..j] == row[..j];
    }
    assert row[..|z_tilde|] == row;
  }

  predicate Shape(z: Outputs) {
    |z| == OT_WIDTH && InnerLengths(z)
  }

  function SenderMatrix(chi_tilde: seq<Scalar>, chi_hat: seq<Scalar>, z: Outputs): (r: seq<seq<Scalar>>)
    requires |chi_tilde| == |chi_hat| == L && Shape(z)
    ensures |r| == L
  {
    seq(L, i requires 0 <= i < L => SenderRow(chi_tilde[i], z[i], chi_hat[i], z[L + i]))
  }

  function CheckValues(chi_tilde: seq<Scalar>, a_tilde: seq<Scalar>, chi_hat: seq<Scalar>, a_hat: seq<Scalar>): (u: seq<Scalar>)
    requires |chi_tilde| == |chi_hat| == |a_tilde| == |a_hat| == L
    ensures |u| == L
  {
    seq(L, i requires 0 <= i < L => Add(Mul(chi_tilde[i], a_tilde[i]), Mul(chi_hat[i], a_hat[i])))
  }

  /** input - pad */
  function Gammas(a: seq<Scalar>, b: seq<Scalar>): (d: seq<Scalar>)
    requires |a| == |b|
    ensures |d| == |a|
  {
    seq(|a|, i requires 0 <= i < |a| => Sub(a[i], b[i]))
  }

  function Dots(g: seq<Scalar>, z: Outputs): (d: seq<Scalar>)
    requires |g| == BATCH_SIZE && Shape(z)
    ensures |d| == L
  {
    seq(L, i requires 0 <= i < L => Dot(g, z[i]))
  }

  /** What the sender computes from the outputs of the OT extension. */
  function SenderMessage(sender: MulSender, sid: Bytes, input: seq<Scalar>, a_tilde: seq<Scalar>, a_hat: seq<Scalar>,
                         z: Outputs, taus: Outputs, transcript: Bytes): (r: (seq<Scalar>, MulDataToReceiver))
    requires |input| == |a_tilde| == |a_hat| == L && Shape(z)
    ensures |r.0| == L
  {
    var chi_tilde, chi_hat := Chis(TAG_MUL_CHI_TILDE, sid, transcript), Chis(TAG_MUL_CHI_HAT, sid, transcript);
    (Dots(sender.public_gadget, z),
     MulDataToReceiver(taus, MatrixHash(sid, SenderMatrix(chi_tilde, chi_hat, z)),
                       CheckValues(chi_tilde, a_tilde, chi_hat, a_hat), Gammas(input, a_tilde)))
  }

  /** What MulSender::run returns when it draws the pads a_tilde and the check values a_hat. */
  ghost function MulSenderRun(sender: MulSender, sid: Bytes, input: seq<Scalar>, data: OTEDataToSender,
                              a_tilde: seq<Scalar>, a_hat: seq<Scalar>): (r: Result<(seq<Scalar>, MulDataToReceiver), MulError>)
    requires |input| == |a_tilde| == |a_hat| == L
    ensures r.Ok? ==> |r.value.0| == L
  {
    var sent := SenderRun(sender.ote_sender, OteSid(sid), OT_WIDTH, Copies(a_tilde) + Copies(a_hat), data);
    if sent.Err? then Err(ExtensionFailed(sent.error))
    else Ok(SenderMessage(sender, sid, input, a_tilde, a_hat, sent.value.0, sent.value.1, Transcript(data)))
  }

  method SenderMatrixHash(sid: Bytes, chi_tilde: seq<Scalar>, chi_hat: seq<Scalar>, z: Outputs) returns (verify_r: HashOutput)
    requires |chi_tilde| == |chi_hat| == L && Shape(z)
    ensures verify_r == MatrixHash(sid, SenderMatrix(chi_tilde, chi_hat, z))
  {
    hide SenderRow;
    ghost var r := SenderMatrix(chi_tilde, chi_hat, z);
    var bytes: Bytes := [];
    for i := 0 to L
      invariant bytes == MatrixBytes(r[..i])
    {
      var row := SenderRowBytes(chi_tilde[i], z[i], chi_hat[i], z[L + i]);
      bytes := bytes + row;
      assert r[..i + 1][..i] == r[..i];
    }
    assert r[..L] == r;
    verify_r := MatrixHashOf(sid, bytes);
  }

  method MatrixHashOf(sid: Bytes, bytes: Bytes) returns (h: HashOutput)
    ensures h == TaggedHash(TAG_MUL_VERIFY, [sid, bytes])
  {
    h := TaggedHashOf(TAG_MUL_VERIFY, [sid, bytes]);
  }

  method ComputeDots(g: seq<Scalar>, z: Outputs) returns (output: seq<Scalar>)
    requires |g| == BATCH_SIZE && Shape(z)
    ensures output == Dots(g, z)
  {
    hide Dot;
    output := [];
    for i := 0 to L
      invariant |output| == i
      invariant forall k :: 0 <= k < i ==> output[k] == Dot(g, z[k])
    {
      var summation := DotOf(g, z[i]);
      output := output + [summation];
    }
  }

  method MakeCopies(a: seq<Scalar>) returns (copies: Outputs)
    ensures copies == Copies(a)
  {
    copies := [];
    for i := 0 to |a|
      invariant |copies| == i
      invariant forall k :: 0 <= k < i ==> copies[k] == seq(BATCH_SIZE, _ => a[k])
    {
      copies := copies + [seq(BATCH_SIZE, _ => a[i])];
    }
  }

  method ComputeCheckValues(chi_tilde: seq<Scalar>, a_tilde: seq<Scalar>, chi_hat: seq<Scalar>, a_hat: seq<Scalar>)
    returns (verify_u: seq<Scalar>)
    requires |chi_tilde| == |chi_hat| == |a_tilde| == |a_hat| == L
    ensures verify_u == CheckValues(chi_tilde, a_tilde, chi_hat, a_hat)
  {
    verify_u := [];
    for i := 0 to L
      invariant |verify_u| == i
      invariant forall k :: 0 <= k < i ==> verify_u[k] == Add(Mul(chi_tilde[k], a_tilde[k]), Mul(chi_hat[k], a_hat[k]))
    {
      verify_u := verify_u + [Add(Mul(chi_tilde[i], a_tilde[i]), Mul(chi_hat[i], a_hat[i]))];
    }
  }

  method ComputeGammas(input: seq<Scalar>, a_tilde: seq<Scalar>) returns (gamma: seq<Scalar>)
    requires |input| == |a_tilde| == L
    ensures gamma == Gammas(input, a_tilde)
  {
    gamma := [];
    for i := 0 to L
      invariant |gamma| == i
      invariant forall k :: 0 <= k < i ==> gamma[k] == Sub(input[k], a_tilde[k])
    {
      gamma := gamma + [Sub(input[i], a_tilde[i])];
    }
  }

  /** MulSender::run */
  method RunMulSender(sender: MulSender, sid: Bytes, input: seq<Scalar>, data: OTEDataToSender,
                      a_tilde: seq<Scalar>, a_hat: seq<Scalar>)
    returns (r: Result<(seq<Scalar>, MulDataToReceiver), MulError>)
    requires |input| == |a_tilde| == |a_hat| == L
    ensures r == MulSenderRun(sender, sid, input, data, a_tilde, a_hat)
  {
    hide SenderRun, Chis, MatrixHash, SenderMatrix, CheckValues, Gammas, Dots, Transcript, OteSid, Copies;
    var correlation_tilde := MakeCopies(a_tilde);
    var correlation_hat := MakeCopies(a_hat);
    var sent := RunSender(sender.ote_sender, OteSid(sid), OT_WIDTH, correlation_tilde + correlation_hat, data);
    if sent.Err? {
      return Err(ExtensionFailed(sent.error));
    }
    var (z, vector_of_tau) := sent.value;
    var chi_tilde, chi_hat := ComputeChis(sid, Transcript(data));
    var verify_r := SenderMatrixHash(sid, chi_tilde, chi_hat, z);
    var verify_u := ComputeCheckValues(chi_tilde, a_tilde, chi_hat, a_hat);
    var gamma := ComputeGammas(input, a_tilde);
    var output := ComputeDots(sender.public_gadget, z);
    return Ok((output, MulDataToReceiver(vector_of_tau, verify_r, verify_u, gamma)));
  }

  // Receiver

  function Selected(g: seq<Scalar>, bits: seq<bool>): (s: seq<Scalar>)
    requires |g| == |bits|
    ensures |s| == |g|
  {
    seq(|g|, i requires 0 <= i < |g| => if bits[i] then g[i] else 0)
  }

  /** The sum of the gadget entries at the set choice bits. */
  function Pad(g: seq<Scalar>, bits: seq<bool>): Scalar
    requires |g| == |bits|
  {
    Sum(Selected(g, bits))
  }

  method ComputePad(g: seq<Scalar>, bits: seq<bool>) returns (b: Scalar)
    requires |g| == |bits|
    ensures b == Pad(g, bits)
  {
    b := 0;
    for i := 0 to |g|
      invariant b == Sum(Selected(g, bits)[..i])
    {
      Identities(b);
      if bits[i] {
        b := Add(b, g[i]);
      }
      assert Selected(g, bits)[..i + 1][..i] == Selected(g, bits)[..i];
    }
    assert Selected(g, bits)[..|g|] == Selected(g, bits);
  }

  ghost function Kept(receiver: MulReceiver, sid: Bytes, choice_bits: seq<bool>, extended_seeds: seq<PRGOutput>,
                      data: OTEDataToSender): MulDataToKeepReceiver
    requires |choice_bits| == BATCH_SIZE
  {
    MulKeepFields(Pad(receiver.public_gadget, choice_bits), choice_bits, extended_seeds,
                          Chis(TAG_MUL_CHI_TILDE, sid, Transcript(data)), Chis(TAG_MUL_CHI_HAT, sid, Transcript(data)))
  }

  /** What MulReceiver::run_phase1 returns when it draws the given choice and noise bits. */
  ghost function MulReceiverRun1(receiver: MulReceiver, sid: Bytes, choice_bits: seq<bool>, noise: seq<bool>)
    : Result<(Scalar, MulDataToKeepReceiver, OTEDataToSender), MulError>
    requires |choice_bits| == BATCH_SIZE && |noise| == OT_SECURITY
  {
    var first := ReceiverRun1(receiver.ote_receiver, OteSid(sid), choice_bits, noise);
    if first.Err? then Err(ExtensionFailed(first.error))
    else Ok((Pad(receiver.public_gadget, choice_bits),
             Kept(receiver, sid, choice_bits, first.value.0, first.value.1), first.value.1))
  }

  /** MulReceiver::run_phase1 */
  method RunMulReceiver1(receiver: MulReceiver, sid: Bytes, choice_bits: seq<bool>, noise: seq<bool>)
    returns (r: Result<(Scalar, MulDataToKeepReceiver, OTEDataToSender), MulError>)
    requires |choice_bits| == BATCH_SIZE && |noise| == OT_SECURITY
    ensures r == MulReceiverRun1(receiver, sid, choice_bits, noise)
  {
    hide ReceiverRun1, Chis, Pad, Transcript, OteSid;
    var b := ComputePad(receiver.public_gadget, choice_bits);
    var first := RunReceiver1(receiver.ote_receiver, OteSid(sid), choice_bits, noise);
    if first.Err? {
      return Err(ExtensionFailed(first.error));
    }
    var (extended_seeds, data_to_sender) := first.value;
    var chi_tilde, chi_hat := ComputeChis(sid, Transcript(data_to_sender));
    return Ok((b, MulKeepFields(b, choice_bits, extended_seeds, chi_tilde, chi_hat), data_to_sender));
  }

  /** One entry of the matrix r as the receiver recomputes it. */
  function ReceiverEntry(chi_tilde: Scalar, z_tilde: Scalar, chi_hat: Scalar, z_hat: Scalar, bit: bool, u: Scalar): Scalar {
    var entry := Sub(Neg(Mul(chi_tilde, z_tilde)), Mul(chi_hat, z_hat));
    if bit then Add(entry, u) else entry
  }

  function ReceiverRow(chi_tilde: Scalar, z_tilde: seq<Scalar>, chi_hat: Scalar, z_hat: seq<Scalar>, bits: seq<bool>, u: Scalar)
    : (r: seq<Scalar>)
    requires |z_tilde| == |z_hat| == |bits|
    ensures |r| == |z_tilde|
  {
    seq(|z_tilde|, j requires 0 <= j < |z_tilde| => ReceiverEntry(chi_tilde, z_tilde[j], chi_hat, z_hat[j], bits[j], u))
  }

  method ReceiverRowBytes(chi_tilde: Scalar, z_tilde: seq<Scalar>, chi_hat: Scalar, z_hat: seq<Scalar>, bits: seq<bool>,
                          u: Scalar)
    returns (bytes: Bytes)
    requires |z_tilde| == |z_hat| == |bits|
    ensures bytes == RowBytes(ReceiverRow(chi_tilde, z_tilde, chi_hat, z_hat, bits, u))
  {
    ghost var row := ReceiverRow(chi_tilde, z_tilde, chi_hat, z_hat, bits, u);
    bytes := [];
    for j := 0 to |z_tilde|
      invariant bytes == RowBytes(row[..j])
    {
      var entry := Sub(Neg(Mul(chi_tilde, z_tilde[j])), Mul(chi_hat, z_hat[j]));
      if bits[j] {
        entry := Add(entry, u);
      }
      bytes := bytes + ScalarBytes(entry);
      assert row[..j + 1][..j] == row[..j];
    }
    assert row[..|z_tilde|] == row;
  }

  function ReceiverMatrix(kept: MulDataToKeepReceiver, z: Outputs, u: seq<Scalar>): (r: seq<seq<Scalar>>)
    requires |u| == L && Shape(z) && |kept.choice_bits| == BATCH_SIZE
    ensures |r| == L
  {
    seq(L, i requires 0 <= i < L => ReceiverRow(kept.chi_tilde[i], z[i], kept.chi_hat[i], z[L + i], kept.choice_bits, u[i]))
  }

  method ReceiverMatrixHash(sid: Bytes, kept: MulDataToKeepReceiver, z: Outputs, u: seq<Scalar>) returns (verify_r: HashOutput)
    requires |u| == L && Shape(z) && |kept.choice_bits| == BATCH_SIZE
    ensures verify_r == MatrixHash(sid, ReceiverMatrix(kept, z, u))
  {
    hide ReceiverRow;
    ghost var r := ReceiverMatrix(kept, z, u);
    var bytes: Bytes := [];
    for i := 0 to L
      invariant bytes == MatrixBytes(r[..i])
    {
      var row := ReceiverRowBytes(kept.chi_tilde[i], z[i], kept.chi_hat[i], z[L + i], kept.choice_bits, u[i]);
      bytes := bytes + row;
      assert r[..i + 1][..i] == r[..i];
    }
    assert r[..L] == r;
    verify_r := MatrixHashOf(sid, bytes);
  }

  /** b * gamma + the gadget-weighted sum of the receiver's OT outputs. */
  function ReceiverShares(g: seq<Scalar>, z: Outputs, b: Scalar, gamma: seq<Scalar>): (r: seq<Scalar>)
    requires |g| == BATCH_SIZE && Shape(z) && |gamma| == L
    ensures |r| == L
  {
    seq(L, i requires 0 <= i < L => Add(Mul(b, gamma[i]), Dot(g, z[i])))
  }

  /** What MulReceiver::run_phase2 returns. */
  function MulReceiverRun2(receiver: MulReceiver, sid: Bytes, kept: MulDataToKeepReceiver, received: MulDataToReceiver)
    : (r: Result<seq<Scalar>, MulError>)
    ensures r.Ok? ==> |r.value| == L
  {
    if |received.verify_u| != L || |received.gamma_sender| != L then Err(WrongMessage)
    else
      var z := ReceiverRun2(OteSid(sid), OT_WIDTH, kept.choice_bits, kept.extended_seeds, received.vector_of_tau);
      if z.Err? then Err(ExtensionFailed(z.error))
      else if received.verify_r != MatrixHash(sid, ReceiverMatrix(kept, z.value, received.verify_u)) then Err(WrongMatrix)
      else Ok(ReceiverShares(receiver.public_gadget, z.value, kept.b, received.gamma_sender))
  }

  /** MulReceiver::run_phase2 */
  method RunMulReceiver2(receiver: MulReceiver, sid: Bytes, kept: MulDataToKeepReceiver, received: MulDataToReceiver)
    returns (r: Result<seq<Scalar>, MulError>)
    ensures r == MulReceiverRun2(receiver, sid, kept, received)
  {
    hide ReceiverRun2, MatrixHash, ReceiverMatrix, Dot, OteSid;
    if |received.verify_u| != L || |received.gamma_sender| != L {
      return Err(WrongMessage);
    }
    var z := RunReceiver2(OteSid(sid), OT_WIDTH, kept.choice_bits, kept.extended_seeds, received.vector_of_tau);
    if z.Err? {
      return Err(ExtensionFailed(z.error));
    }
    var expected_verify_r := ReceiverMatrixHash(sid, kept, z.value, received.verify_u);
    if received.verify_r != expected_verify_r {
      return Err(WrongMatrix);
    }
    var output: seq<Scalar> := [];
    for i := 0 to L
      invariant |output| == i
      invariant forall k :: 0 <= k < i ==>
        output[k] == Add(Mul(kept.b, received.gamma_sender[k]), Dot(receiver.public_gadget, z.value[k]))
    {
      var summation := DotOf(receiver.public_gadget, z.value[i]);
      output := output + [Add(Mul(kept.b, received.gamma_sender[i]), summation)];
    }
    assert output == ReceiverShares(receiver.public_gadget, z.value, kept.b, received.gamma_sender);
    return Ok(output);
  }

  // Correctness

  /** v = s + r with v the correlation or zero, rearranged. */
  lemma EntriesAgree(ct: Scalar, st: Scalar, rt: Scalar, at: Scalar, ch: Scalar, sh: Scalar, rh: Scalar, ah: Scalar, bit: bool)
    requires Add(st, rt) == (if bit then at else 0) && Add(sh, rh) == (if bit then ah else 0)
    ensures ReceiverEntry(ct, rt, ch, rh, bit, Add(Mul(ct, at), Mul(ch, ah))) == Add(Mul(ct, st), Mul(ch, sh))
  {
    Distribute(ct, st, rt);
    Distribute(ch, sh, rh);
    Identities(ct);
    Identities(ch);
    var x, y, s, t := Mul(ct, st), Mul(ch, sh), Mul(ct, rt), Mul(ch, rh);
    if bit {
      RegroupPairs(x, s, y, t);
    } else {
      ZeroPair(x, s);
      ZeroPair(y, t);
      Negations(s, t);
    }
  }

  lemma RegroupPairs(x: Scalar, s: Scalar, y: Scalar, t: Scalar)
    ensures Add(Sub(Neg(s), t), Add(Add(x, s), Add(y, t))) == Add(x, y)
  {
    var s': int, t': int, x': int, y': int := s, t, x, y;
    OfScalar(s); OfScalar(t); OfScalar(x); OfScalar(y);
    OfNeg(s'); OfNeg(t'); OfAdd((-s'), (-t')); OfAdd(x', s'); OfAdd(y', t'); OfAdd((x' + s'), (y' + t'));
    OfAdd(((-s') + (-t')), ((x' + s') + (y' + t'))); OfAdd(x', y');
    assert ((-s') + (-t')) + ((x' + s') + (y' + t')) == x' + y';
  }

  lemma ZeroPair(x: Scalar, s: Scalar)
    requires Add(x, s) == 0
    ensures x == Neg(s)
  {
    assert Sub(Add(x, s), s) == x by { Ring(); }
    LeftZero(Neg(s));
  }

  lemma Negations(s: Scalar, t: Scalar)
    ensures Sub(Neg(s), t) == Add(Neg(s), Neg(t))
  {}

  /** The matrix the receiver recomputes is the sender's, entry by entry. */
  lemma MatricesAgree(kept: MulDataToKeepReceiver, sent: Outputs, received: Outputs, a_tilde: seq<Scalar>, a_hat: seq<Scalar>)
    requires |a_tilde| == |a_hat| == L && Shape(sent) && Shape(received)
    requires Transferred(sent, received, Copies(a_tilde) + Copies(a_hat), kept.choice_bits)
    ensures ReceiverMatrix(kept, received, CheckValues(kept.chi_tilde, a_tilde, kept.chi_hat, a_hat))
            == SenderMatrix(kept.chi_tilde, kept.chi_hat, sent)
  {
    hide ReceiverEntry;
    var u := CheckValues(kept.chi_tilde, a_tilde, kept.chi_hat, a_hat);
    forall i | 0 <= i < L
      ensures ReceiverRow(kept.chi_tilde[i], received[i], kept.chi_hat[i], received[L + i], kept.choice_bits, u[i])
              == SenderRow(kept.chi_tilde[i], sent[i], kept.chi_hat[i], sent[L + i])
    {
      var inputs := Copies(a_tilde) + Copies(a_hat);
      forall j | 0 <= j < BATCH_SIZE
        ensures ReceiverEntry(kept.chi_tilde[i], received[i][j], kept.chi_hat[i], received[L + i][j], kept.choice_bits[j], u[i])
                == Add(Mul(kept.chi_tilde[i], sent[i][j]), Mul(kept.chi_hat[i], sent[L + i][j]))
      {
        assert inputs[i][j] == a_tilde[i] && inputs[L + i][j] == a_hat[i];
        EntriesAgree(kept.chi_tilde[i], sent[i][j], received[i][j], a_tilde[i],
                     kept.chi_hat[i], sent[L + i][j], received[L + i][j], a_hat[i], kept.choice_bits[j]);
      }
    }
  }

  /** The two gadget sums add up to a * b. */
  lemma DotsAdd(g: seq<Scalar>, s: seq<Scalar>, r: seq<Scalar>, bits: seq<bool>, a: Scalar)
    requires |g| == |s| == |r| == |bits|
    requires forall j :: 0 <= j < |g| ==> Add(s[j], r[j]) == if bits[j] then a else 0
    ensures Add(Dot(g, s), Dot(g, r)) == Mul(a, Pad(g, bits))
  {
    var c := Scaled(a, Selected(g, bits));
    forall j | 0 <= j < |g| ensures c[j] == Add(Products(g, s)[j], Products(g, r)[j]) {
      Distribute(g[j], s[j], r[j]);
      Commute(a, g[j]);
      Identities(g[j]);
      Identities(a);
    }
    SumAdd(Products(g, s), Products(g, r), c);
    SumScaled(a, Selected(g, bits));
  }

  /** Shifting by gamma turns a share of pad * b into one of input * b. */
  lemma ShiftByGamma(s: Scalar, r: Scalar, a: Scalar, b: Scalar, input: Scalar)
    requires Add(s, r) == Mul(a, b)
    ensures Add(s, Add(Mul(b, Sub(input, a)), r)) == Mul(input, b)
  {
    var x, y := Mul(input, b), Mul(a, b);
    DistributeSub(b, input, a);
    Commute(b, input);
    Commute(b, a);
    Collect(s, r, x);
  }

  lemma Collect(s: Scalar, r: Scalar, x: Scalar)
    ensures Add(s, Add(Sub(x, Add(s, r)), r)) == x
  {
    var s': int, x': int, r': int := s, x, r;
    OfScalar(s); OfScalar(x); OfScalar(r);
    OfAdd(s', r'); OfNeg((s' + r')); OfAdd(x', (-(s' + r'))); OfAdd((x' + (-(s' + r'))), r');
    OfAdd(s', ((x' + (-(s' + r'))) + r'));
    assert s' + ((x' + (-(s' + r'))) + r') == x';
  }

  /** Honest runs on paired states never fail, and the two outputs are additive shares of input_i * b,
      where b is the receiver's random factor. */
  lemma MultiplicationCorrect(sender: MulSender, receiver: MulReceiver, sid: Bytes, input: seq<Scalar>,
                              a_tilde: seq<Scalar>, a_hat: seq<Scalar>, choice_bits: seq<bool>, noise: seq<bool>)
    requires Paired(sender, receiver)
    requires |input| == |a_tilde| == |a_hat| == L && |choice_bits| == BATCH_SIZE && |noise| == OT_SECURITY
    ensures var first := MulReceiverRun1(receiver, sid, choice_bits, noise);
      && first.Ok?
      && var (b, kept, data) := first.value;
      && b == Pad(receiver.public_gadget, choice_bits)
      && var sent := MulSenderRun(sender, sid, input, data, a_tilde, a_hat);
      && sent.Ok?
      && var output := MulReceiverRun2(receiver, sid, kept, sent.value.1);
      && output.Ok?
      && |sent.value.0| == |output.value| == L
      && forall i :: 0 <= i < L ==> Add(sent.value.0[i], output.value[i]) == Mul(input[i], b)
  {
    hide SenderRun, ReceiverRun1, ReceiverRun2, Matching, Transcript, Chis, Pad, Dot, MatrixHash, SenderMatrix,
         ReceiverMatrix, CheckValues, Copies;
    var inputs := Copies(a_tilde) + Copies(a_hat);
    ExtensionCorrect(sender.ote_sender, receiver.ote_receiver, OteSid(sid), OT_WIDTH, inputs, choice_bits, noise);
    var (b, kept, data) := MulReceiverRun1(receiver, sid, choice_bits, noise).value;
    var (z, taus) := SenderRun(sender.ote_sender, OteSid(sid), OT_WIDTH, inputs, data).value;
    var w := ReceiverRun2(OteSid(sid), OT_WIDTH, choice_bits, kept.extended_seeds, taus).value;
    MatricesAgree(kept, z, w, a_tilde, a_hat);
    SharesAdd(sender.public_gadget, z, w, choice_bits, a_tilde, a_hat, input);
  }

  lemma SharesAdd(g: seq<Scalar>, z: Outputs, w: Outputs, bits: seq<bool>, a_tilde: seq<Scalar>, a_hat: seq<Scalar>,
                  input: seq<Scalar>)
    requires |g| == |bits| == BATCH_SIZE && |a_tilde| == |a_hat| == |input| == L && Shape(z) && Shape(w)
    requires Transferred(z, w, Copies(a_tilde) + Copies(a_hat), bits)
    ensures var r := ReceiverShares(g, w, Pad(g, bits), Gammas(input, a_tilde));
      forall i :: 0 <= i < L ==> Add(Dots(g, z)[i], r[i]) == Mul(input[i], Pad(g, bits))
  {
    hide Dot, Pad;
    var inputs := Copies(a_tilde) + Copies(a_hat);
    forall i | 0 <= i < L
      ensures Add(Dot(g, z[i]), Add(Mul(Pad(g, bits), Sub(input[i], a_tilde[i])), Dot(g, w[i]))) == Mul(input[i], Pad(g, bits))
    {
      assert forall j :: 0 <= j < BATCH_SIZE ==> inputs[i][j] == a_tilde[i];
      DotsAdd(g, z[i], w[i], bits, a_tilde[i]);
      ShiftByGamma(Dot(g, z[i]), Dot(g, w[i]), a_tilde[i], Pad(g, bits), input[i]);
    }
  }
}
