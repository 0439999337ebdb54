# Verified model of the DKLs23 threshold ECDSA core

This project models the protocol core of the repository in Dafny and proves its correctness claims for all
inputs, all runs and all interleavings:

- a 64-bit-limb multiplier for GF(2^208), a packed bit-matrix transpose, the OT extension with its consistency
  check, and the two-party multiplication that turns XOR correlations into additive shares of a product;
- Shamir sharing: Horner and power-form evaluation, Lagrange interpolation in the exponent, and the sliding-window
  check of key generation, which is shown to decide exactly whether all points lie on one short polynomial;
- distributed key generation, signing, complete and fast refresh and BIP-32 derivation as steps of n parties, up to
  the theorem that honest signing sessions yield the ECDSA signature of a single signer, in every interleaving,
  and exactly under a stated condition on the drawn values;
- the two byte codecs: message frames and length-prefixed hashing.

## How it is organised

Groundwork: `Bits`, `PackedBits`, `BinaryPolynomials` (bit level); `PrimeField`, `Sums`, `Polynomials`, `Sequences`,
`Curve` (algebra); `Outcomes`, `Protocols`, `PartyStates`, `Network`, `MessageRouting` (shared types, the
joint-state invariant, message delivery). One module per component of the program otherwise.

What acceptance means is a separate question from what the code computes. The modules `ProofAcceptance`,
`OTAcceptance`, `MultiplicationAcceptance`, `DkgAcceptance`, `RefreshAcceptance` and `SigningAcceptance` state for
arbitrary messages, in terms of hashes, sums and points and without the specification functions, when each operation
succeeds, what it then returns and which error it gives otherwise. `MultiplicationTampering`, `DkgTampering` and
`Tampering` say what happens to an honest run in which one value is replaced, and `Bans` who can be banned.
`OracleUses` lists every use of the hash and shows that they are separated.

Code that works by changing things step by step is a method with loops and invariants, proved equal to a
specification function (`RunSender` and `SenderRun`, `SignPhase3` and `Phase3Outcome`, ...). What the program promises
is then proved about those functions. The session objects are classes whose methods are tied to a step function of
their fields. Runs of several parties are transition systems over those step functions: a trace is any sequence of
steps in which every message reaches the party it is addressed to, in any order.

## Conventions

- The group order `Q` is an arbitrary prime above 256; nothing else about it is used. Points of the cyclic group are
  represented by their discrete logarithms. The x coordinate is an unknown function that agrees exactly on opposite
  points, and the parity of y is an unknown function that flips under negation. Point and scalar encodings are unknown
  injective functions, each of a fixed length.
- SHA-256, HMAC-SHA512, HASH160 and the reduction of a digest modulo the group order are unknown functions. What is
  hashed is modelled byte by byte.
- Randomness is an argument: whatever a party samples is a parameter of the step (`...Draws`), and theorems hold for all
  of its values.
- A proof of knowledge made by a party is accepted exactly if its random commitments are distinct; theorems about runs
  therefore assume that the proofs are accepted.
- `IndexPanic` stands for a panic: the index sum `i + threshold` beyond 255 in step 5, or an OT state too short for the
  loop of the fast refresh.
- Vectors that the program builds by pushing are sequences, maps are finite maps, and the limbs, the output matrix of
  the transpose and the OT state of the fast refresh are arrays changed in place.

## Where the code and its documentation differ

- `step5` documents that it panics if the indices are not 1 to n; the code returns `MissingCommittedPoint`, and it
  accepts additional indices.
- At 255 parties the end of the last window of `step5` overflows a `u8`. With overflow checks it panics, so it never
  succeeds; the model takes this case. Without them (Cargo.toml sets none for release builds) the sum wraps, the last
  window is empty and its value is the identity: key generation then still rejects every non-trivial key, but a
  refresh, which expects the identity, accepts with that window unchecked.
- `PublicKeyPackage::derive_child` derives the children that the parties derive, but it has no depth check. At level 255
  every party refuses, and the package still derives every child that CKDpriv allows (`PackageOutlivesParties`); above
  that level they agree (`PackageAgrees`).
- `DLogProof::prove` can return a proof that `verify` rejects, because only `verify` demands distinct commitments.
- The recovery id computed in phase 4 has a bit for a reduced x coordinate, but a signature with a non-canonical r is
  rejected before, so an Ok result always has that bit clear.

## Model

| member | source | states |
|---|---|---|
| FieldMultiplication.Load | dkls23-core/src/utilities/ot/extension.rs:898-906 | the limbs hold exactly the polynomial of the 26 little-endian bytes |
| FieldMultiplication.Comb | dkls23-core/src/utilities/ot/extension.rs:909-926 | the right-to-left comb over shifted limbs leaves the exact product of the two polynomials over GF(2); no bit of the five-limb shifted factor is lost |
| FieldMultiplication.Reduce | dkls23-core/src/utilities/ot/extension.rs:934-959 | the two word-wise reduction stages keep the residue modulo X^208 + X^9 + X^3 + X + 1 and end below degree 208 |
| FieldMultiplication.FieldMul | dkls23-core/src/utilities/ot/extension.rs:887-969 | for all byte strings: fails exactly if a factor does not have 26 bytes; otherwise the 26 result bytes are congruent to the GF(2)[X] product modulo X^208 + X^9 + X^3 + X + 1 |
| BinaryPolynomials.ProductIsConvolution | dkls23-core/src/utilities/ot/extension.rs:909-926 | the product that the comb accumulates is the convolution of the coefficient sequences over GF(2) |
| BinaryPolynomials.RemainderIsUnique | dkls23-core/src/utilities/ot/extension.rs:934-959 | there is only one residue of degree below 208, so the congruence determines the result |
| BinaryField.Multiply | dkls23-core/src/utilities/ot/extension.rs:887-969 | the 64-bit-limb multiplier refines the unique field product |
| BinaryField.ProductXor | dkls23-core/src/utilities/ot/extension.rs:887-969 | the field product is XOR-linear in a factor |
| BinaryField.FieldProductCommutes | dkls23-core/src/utilities/ot/extension.rs:887-969 | the field product is commutative |
| Transpose.CutAndTranspose | dkls23-core/src/utilities/ot/extension.rs:832-872 | fails exactly on a wrong row count; otherwise bit r of output row c is bit c of input row r for all 256 x 416 positions, and no other bit of the output is set |
| OTExtension.TransposeUnique | dkls23-core/src/utilities/ot/extension.rs:832-872 | that relation determines every output byte |
| OTExtension.TransposeShifted | dkls23-core/src/utilities/ot/extension.rs:389-401 | XORing row r by corr_r * x XORs output row c by x_c * packed(corr) |
| OTExtension.ExpandSeed | dkls23-core/src/utilities/ot/extension.rs:255-279 | the generator loop produces the first 78 bytes of the counter-mode hash chunks |
| OTExtension.Compress | dkls23-core/src/utilities/ot/extension.rs:389-401 | the eight-to-a-byte form has bit i of the list at bit i % 8 of byte i / 8, for every list whose length is a multiple of eight |
| OTExtension.CheckConsistency | dkls23-core/src/utilities/ot/extension.rs:323-367 | the fold over all 256 rows accepts exactly when every weighted row equals t_i + corr_i * x |
| OTExtension.WeightedXor | dkls23-core/src/utilities/ot/extension.rs:325-343 | the consistency check is linear in the row |
| OTExtension.RunSender | dkls23-core/src/utilities/ot/extension.rs:222-473 | the sender, tied to the specification function; what that function accepts, rejects and outputs is OTAcceptance.SenderDecides, SenderOutputs and the two tampering lemmas |
| OTExtension.RunReceiver1 | dkls23-core/src/utilities/ot/extension.rs:536-708 | the first receiver phase for any drawn noise bits, tied to the function that OTAcceptance.ReceiverSends describes |
| OTExtension.RunReceiver2 | dkls23-core/src/utilities/ot/extension.rs:723-814 | the second receiver phase, tied to the function that OTAcceptance.ReceiverOutputs describes |
| OTExtension.HonestIsConsistent | dkls23-core/src/utilities/ot/extension.rs:323-367 | with matching seeds the check of an honest receiver always passes |
| OTExtension.ExtensionCorrect | dkls23-core/src/utilities/ot/extension.rs:222-814 | for all choice bits, noise, correlations and widths: with matching seeds nothing fails, and sender output + receiver output = choice_j * correlation_j in every iteration |
| OTExtension.InitMatching | dkls23-core/src/utilities/ot/extension.rs:186-521 | initialization over the base OT gives matching seeds |
| OTAcceptance.SenderDecides | dkls23-core/src/utilities/ot/extension.rs:222-367 | the sender goes on exactly if all sizes fit and each of the 256 rows passes the check: the GF(2^208) sum of its generator row (XOR u_i if the correlation bit is set) with the two hashes of u as weights equals t_i (XOR x if the bit is set); every other case has its own error |
| OTAcceptance.TamperedTRejected | dkls23-core/src/utilities/ot/extension.rs:345-367 | with matching states and honest data, any other list verify_t makes the sender fail |
| OTAcceptance.TamperedXRejected | dkls23-core/src/utilities/ot/extension.rs:345-367 | with matching states and honest data, another verify_x makes the sender fail if and only if some correlation bit is set |
| OTAcceptance.SenderOutputs | dkls23-core/src/utilities/ot/extension.rs:374-473 | v0 is the hash of the column of q, tau the hash of the column XOR the packed correlation bits, minus v0, plus the input, for every iteration and position |
| OTAcceptance.ReceiverSends | dkls23-core/src/utilities/ot/extension.rs:536-708 | bit j of u_i is the XOR of the two generators' bits and of choice or noise bit j; the check values are the weighted sums of the choices and of the first generator's rows |
| OTAcceptance.ReceiverOutputs | dkls23-core/src/utilities/ot/extension.rs:723-814 | Ok exactly if all sizes fit; the outputs are the negated hashes of the receiver's columns, plus tau where its choice bit is set |
| OTAcceptance.PrgIs | dkls23-core/src/utilities/ot/extension.rs:255-279 | byte k of the generator is byte k % 32 of the digest with counter k / 32 |
| Multiplication.ComputeGadget | dkls23-core/src/utilities/multiplication.rs:177-186 | both ends derive the same 416 gadget entries from the nonce by a running counter |
| Multiplication.RunMulSender | dkls23-core/src/utilities/multiplication.rs:214-386 | the sender, tied to the specification function that MultiplicationAcceptance.MulSenderSends describes |
| Multiplication.RunMulReceiver1 | dkls23-core/src/utilities/multiplication.rs:474-557 | the first receiver phase: b is the sum of the gadget entries at the set choice bits |
| Multiplication.RunMulReceiver2 | dkls23-core/src/utilities/multiplication.rs:569-670 | the second receiver phase, tied to the function that MultiplicationAcceptance.MulReceiverDecides describes |
| Multiplication.MatricesAgree | dkls23-core/src/utilities/multiplication.rs:619-649 | the matrix r that the receiver recomputes is the sender's, entry by entry |
| Multiplication.MultiplicationCorrect | dkls23-core/src/utilities/multiplication.rs:214-670 | on paired states nothing fails and sender_output[i] + receiver_output[i] = input[i] * b for all inputs, pads, check values and choice bits |
| Multiplication.InitPaired | dkls23-core/src/utilities/multiplication.rs:164-457 | honest initialization pairs the two ends: equal gadgets, matching OT seeds |
| MultiplicationAcceptance.GadgetIs | dkls23-core/src/utilities/multiplication.rs:177-186 | gadget entry i is the hash of nonce + i + 1 |
| MultiplicationAcceptance.MulReceiverSends | dkls23-core/src/utilities/multiplication.rs:474-557 | b is the sum of the gadget entries at the set choice bits; the weights are hashes of everything that is sent |
| MultiplicationAcceptance.MulSenderSends | dkls23-core/src/utilities/multiplication.rs:214-386 | Ok exactly if the OT extension accepts; outputs are gadget sums, verify_r is the hash of chi~_i z~_ij + chi^_i z^_ij, verify_u the weighted check values, gamma the inputs minus the pads |
| MultiplicationAcceptance.MulReceiverDecides | dkls23-core/src/utilities/multiplication.rs:569-670 | Ok exactly if the sizes fit and verify_r is the hash of the matrix recomputed entry by entry; the shares are b * gamma_i plus gadget sums; every other case has its own error |
| MultiplicationAcceptance.TamperedHashRejected | dkls23-core/src/utilities/multiplication.rs:619-649 | an honest run in which another verify_r arrives is rejected |
| MultiplicationAcceptance.TamperedCheckRejected | dkls23-core/src/utilities/multiplication.rs:214-386 | an honest receiver's message with another verify_t is rejected |
| MultiplicationTampering.TamperedMessageDecides | dkls23-core/src/utilities/multiplication.rs:569-670 | whatever message of the right sizes replaces the sender's: the compared bytes stay the honest ones exactly if at every set choice bit the error of u_i is chi~_i e_ij + chi^_i e_(i+2)j, so otherwise an unchanged verify_r is accepted only on a hash collision; accepted shares add up to input_i * b plus b times the error of gamma_i plus the gadget-weighted errors of tau |
| MultiplicationTampering.TamperedChecksDecide | dkls23-core/src/utilities/multiplication.rs:900-914 | another verify_u goes unnoticed only if no choice bit is set |
| MultiplicationTampering.ShiftedCorrectionsDecide | dkls23-core/src/utilities/multiplication.rs:916-955 | c added to every tau goes unnoticed exactly if no choice bit is set or c (chi~_i + chi^_i) is zero; accepted, it shifts every share by c times the selected gadget sum |
| Proofs.SchnorrComplete | dkls23-core/src/utilities/proofs.rs:133-182 | honest Schnorr proofs verify |
| Proofs.SchnorrExtracts | dkls23-core/src/utilities/proofs.rs:133-182 | two accepting transcripts on one commitment with different challenge scalars determine the discrete logarithm |
| Proofs.SearchPair | dkls23-core/src/utilities/proofs.rs:258-349 | the proof-of-work search ends within its counter bounds and succeeds exactly if a colliding draw lies within them |
| Proofs.ProveDLog | dkls23-core/src/utilities/proofs.rs:223-364 | the prover succeeds exactly if every index has a collision; index i is paired with i + R/2 after the concatenation |
| Proofs.DistinctCommitments | dkls23-core/src/utilities/proofs.rs:379-398 | the repetition test on encodings decides whether the commitments are pairwise distinct |
| Proofs.VerifyDLog | dkls23-core/src/utilities/proofs.rs:370-446 | the verifier loop accepts exactly the proofs with distinct commitments, colliding hashes and valid transcripts |
| Proofs.ProvedIsAccepted | dkls23-core/src/utilities/proofs.rs:223-446 | what the prover returns is accepted if and only if its random commitments are pairwise distinct (which the prover does not check) |
| Proofs.DecommitVerify | dkls23-core/src/utilities/proofs.rs:501-543 | accepts exactly the committed and valid proofs |
| Proofs.CPComplete | dkls23-core/src/utilities/proofs.rs:619-657 | honest Chaum-Pedersen proofs verify |
| Proofs.CPExtracts | dkls23-core/src/utilities/proofs.rs:649-657 | two accepting transcripts on the same commitments give one witness for both bases |
| Proofs.Simulated | dkls23-core/src/utilities/proofs.rs:667-700 | simulated transcripts verify for their chosen challenge |
| Proofs.EncComplete | dkls23-core/src/utilities/proofs.rs:732-938 | the OR proof verifies for both bits and all draws |
| Proofs.EncExtracts | dkls23-core/src/utilities/proofs.rs:888-938 | from two accepting transcripts with the same statement and commitments but different challenge sums, the formula EncWitness computes the discrete logarithm w of u to base h; v is w * G if the challenges of branch 0 differ, and w * G + h otherwise |
| ProofAcceptance.DLogAcceptedMeans | dkls23-core/src/utilities/proofs.rs:370-446 | accepted if and only if there are 64 distinct commitments, all 64 Schnorr equations hold, and the digests at i and i + 32 agree in their first byte |
| ProofAcceptance.DLogExtracts | dkls23-core/src/utilities/proofs.rs:370-446 | two accepted proofs for one point that share a commitment but not its challenge scalar determine the logarithm |
| ProofAcceptance.DLogPartsFixed | dkls23-core/src/utilities/proofs.rs:370-446 | no response or commitment of an accepted proof can be replaced on its own, and the point only if every challenge reduces to zero |
| ProofAcceptance.EncAcceptedMeans | dkls23-core/src/utilities/proofs.rs:888-938 | accepted if and only if both branches are about one h and u, the challenges add up to the hash of statement and commitments, and all four equations hold |
| ProofAcceptance.EncPartsFixed | dkls23-core/src/utilities/proofs.rs:888-938 | no challenge, response or commitment of an accepted encryption proof can be replaced on its own |
| ProofAcceptance.EncProverReachesAll | dkls23-core/src/utilities/proofs.rs:732-938 | the prover produces every accepted proof of its statement, each from exactly one nonce, fake challenge and fake response |
| BaseOT.OTCorrect | dkls23-core/src/utilities/ot/base.rs:109-297 | an honest run never fails and hands the receiver exactly the chosen message |
| BaseOT.SenderPhase2Batch | dkls23-core/src/utilities/ot/base.rs:154-176 | the batch loop: all instances with their own session id, or the first failure |
| BaseOT.ReceiverPhase1Batch | dkls23-core/src/utilities/ot/base.rs:224-245 | the receiver's first batch loop |
| BaseOT.ReceiverPhase2Batch | dkls23-core/src/utilities/ot/base.rs:307-331 | the receiver's second batch loop; the proof is checked once |
| BaseOT.BatchCorrect | dkls23-core/src/utilities/ot/base.rs:154-331 | for every batch of at most 65535 bits, message i of the receiver is the one bit i selects, once the sender's proof is accepted |
| ProofAcceptance.SenderBatchDecides | dkls23-core/src/utilities/ot/base.rs:109-176 | a batch is accepted if and only if it has at most 65535 proofs, each accepted under its own id for the point hashed from the seed; the messages are hashes of s v and s (v - h) |
| ProofAcceptance.ReceiverBatchDecides | dkls23-core/src/utilities/ot/base.rs:254-331 | accepted if and only if the proof of knowledge is and the batch is not too large; message i is the hash of r_i z |
| ProofAcceptance.TamperedBatchRejected | dkls23-core/src/utilities/ot/base.rs:109-176 | an honest batch with one challenge, response or commitment replaced is rejected |
| Hashes.TaggedHashOf | dkls23-core/src/utilities/hashes.rs:22-40 | the buffer handed to the digest is the length-prefixed encoding of tag and components |
| Hashes.TaggedEncodingInjective | dkls23-core/src/utilities/hashes.rs:22-40 | equal encodings imply equal tags, equal component counts and equal components, for all lengths below 2^64 |
| OracleUses.QueriesSeparated | dkls23-core/src/utilities/hashes.rs:22-40 | all uses of the hash are separated: two queries with any of the 17 tags that hash the same bytes have the same tag and the same parts |
| OracleUses.TagNumbers | dkls23-core/src/utilities/oracle_tags.rs:8-73 | no two of the 17 tags are equal |
| OracleUses.ProofQueries | dkls23-core/src/utilities/proofs.rs:258-543 | what the three hashes of the proofs are taken of |
| OracleUses.SeedQueries | dkls23-core/src/utilities/zero_shares.rs:105-130 | what commitments, zero-share fragments, base OT points and base OT messages are hashes of |
| OracleUses.TransferQueries | dkls23-core/src/utilities/ot/extension.rs:255-343 | what generator blocks, check weights and row scalars are hashes of |
| OracleUses.MultiplicationQueries | dkls23-core/src/utilities/multiplication.rs:177-330 | what gadget entries, weights and the matrix digest are hashes of |
| OracleUses.RefreshQueries | dkls23-core/src/protocols/refresh.rs:1040-1080 | what the three masks of a position are hashes of |
| OracleUses.MatrixInjective | dkls23-core/src/utilities/multiplication.rs:600-649 | matrices of one shape have different serialisations |
| OracleUses.RowsInjective | dkls23-core/src/utilities/ot/extension.rs:300-320 | the bytes hashed for the check weights determine the matrix u |
| Messages.EncodeMessage | dkls23-core/src/protocols/messages.rs:51-61 | the tag, the length in four bytes with the most significant first, the payload; payloads of 2^32 bytes or more are refused |
| Messages.FindInStream | dkls23-core/src/protocols/messages.rs:63-97 | the loop over arbitrary bytes terminates in bounds and computes the search function |
| Messages.SearchMeaning | dkls23-core/src/protocols/messages.rs:63-97 | on every stream: a payload is returned exactly if complete frames without the tag precede a complete frame with it; NotFound exactly if the stream is all such frames; a truncated header or payload exactly if it breaks off there before a match |
| Messages.SearchFrames | dkls23-core/src/protocols/messages.rs:51-97 | on a concatenation of frames the first one with the tag is found |
| Messages.PhaseOutput.AddBroadcast | dkls23-core/src/protocols/messages.rs:114-117 | appends one frame to the broadcast stream and changes nothing else |
| Messages.PhaseOutput.AddP2p | dkls23-core/src/protocols/messages.rs:119-131 | appends one frame to the stream of one receiver and changes nothing else |
| Messages.DeliveredFrame | dkls23-core/src/protocols/messages.rs:133-153 | looking up a tag in a delivered stream returns the first frame sent with it |
| KeyGenerationSteps.Step2 | dkls23-core/src/protocols/dkg.rs:288-312 | Horner's rule gives the values of the polynomial at 1, ..., n |
| KeyGenerationSteps.Step3 | dkls23-core/src/protocols/dkg.rs:328-345 | the share is the sum of the fragments |
| KeyGenerationSteps.ComputeCoefficient | dkls23-core/src/protocols/dkg.rs:400-413 | the running numerator and denominator give the Lagrange coefficient; the denominator is never zero |
| KeyGenerationSteps.ComputeWindow | dkls23-core/src/protocols/dkg.rs:397-427 | one window: reconstruction in the exponent, or the first missing party |
| KeyGenerationSteps.Step5 | dkls23-core/src/protocols/dkg.rs:365-441 | the whole check with its error order, tied to the specification function |
| Shamir.WindowsDecide | dkls23-core/src/protocols/dkg.rs:394-440 | agreement at zero of all windows of t consecutive parties is equivalent to all shares lying on one polynomial with t coefficients, whose value at zero is the common one |
| KeyGenerationSteps.Step5Decides | dkls23-core/src/protocols/dkg.rs:365-441 | Ok if and only if n <= 254, all other parties' proofs verify, and the points 1..n are present and lie on one polynomial with t coefficients; then pk is that polynomial at 0 |
| KeyGenerationSteps.Step5Names | dkls23-core/src/protocols/dkg.rs:373-440 | failure names the first party whose proof is not accepted; with all proofs and points there, at most 254 parties, it is PolynomialInconsistency |
| KeyGenerationSteps.Step5Stops | dkls23-core/src/protocols/dkg.rs:390-440 | with accepted proofs and a first missing party, or all of 1..254 present at 255 parties: PolynomialInconsistency if a complete window precedes and the points before do not lie on one short polynomial, else the missing party is named or the index sum overflows |
| KeyGenerationSteps.CommittedLast | dkls23-core/src/protocols/dkg.rs:371-388 | among several points for one party the last one counts |
| Polynomials.Reconstruction | dkls23-core/src/protocols/dkg.rs:400-427 | Lagrange interpolation at zero from any t distinct points recovers p(0) |
| ZeroShares.VerifyCommitment | dkls23-core/src/utilities/commits.rs:41-44 | accepts exactly the hash of salt and message |
| ZeroShares.GenerateSeedPair | dkls23-core/src/utilities/zero_shares.rs:65-86 | the byte loop XORs the two seeds; the sign goes to the lower index |
| ZeroShares.ComputeZeta | dkls23-core/src/utilities/zero_shares.rs:105-130 | the loop adds the signed fragments of the listed counterparties only |
| ZeroShares.ZetaIs | dkls23-core/src/utilities/zero_shares.rs:105-130 | a share is the sum of the hashes of the listed counterparties' seeds in pairs where the owner has the higher index, minus that of the pairs where it has the lowest |
| ZeroShares.ZeroSharesCancel | dkls23-core/src/utilities/zero_shares.rs:105-130 | for every set of parties with mirrored seeds, however each lists its counterparties, the shares add up to zero |
| ReKey.CommonSeeds | dkls23-core/src/protocols/re_key.rs:71-81 | the triangular table holds the seed of pair (l, h) at row l - 1, column h - l - 1 |
| ReKey.PartySeeds | dkls23-core/src/protocols/re_key.rs:85-113 | all table reads are in bounds, and both ends of a pair read the same entry with opposite signs |
| ReKey.DealPair | dkls23-core/src/protocols/re_key.rs:129-180 | the sender's seeds are those its correlation bits select |
| ReKey.DealMultiplication | dkls23-core/src/protocols/re_key.rs:118-183 | after the double loop every ordered pair, and no other key, is in the maps |
| ReKey.EvalByPowers | dkls23-core/src/protocols/re_key.rs:194-201 | the power form of evaluation equals Horner's rule |
| ReKey.Split | dkls23-core/src/protocols/re_key.rs:44-240 | the parties are consistent: a sharing of the given secret with mirrored seeds and paired multiplications; verifying shares are the shares in the exponent |
| ReKey.DealtAsDrawn | dkls23-core/src/protocols/re_key.rs:85-240 | the seeds, bits and gadgets that two parties hold for each other are those drawn for their pair, and derivation starts at the root |
| KeyGeneration.Phase2 | dkls23-core/src/protocols/dkg.rs:488-554 | share, committed proof, seeds with commitments and chain code commitment; the proof is acceptable exactly if its random commitments are distinct |
| KeyGeneration.CommitSeeds | dkls23-core/src/protocols/dkg.rs:506-527 | one commitment for every other party in increasing order |
| KeyGeneration.PrepareMultiplication | dkls23-core/src/protocols/dkg.rs:614-683 | one set-up message for every other party, with mirrored session ids for the two roles |
| KeyGeneration.Phase3 | dkls23-core/src/protocols/dkg.rs:574-702 | opens the seeds in key order and prepares all multiplications |
| MessageRouting.CollectBySender | dkls23-core/src/protocols/dkg.rs:787-850 | sorting by sender with the misrouted, unexpected and duplicate faults in order |
| MessageRouting.CollectedMeaning | dkls23-core/src/protocols/dkg.rs:787-850 | accepted exactly if every message is addressed to this party by an expected sender and no sender repeats |
| MessageRouting.NobodyMissing | dkls23-core/src/protocols/dkg.rs:851-868 | if as many messages were collected as are expected, each expected sender was seen exactly once |
| DkgAcceptance.CollectedFault | dkls23-core/src/protocols/dkg.rs:787-850 | the first message that spoils the list decides: misrouted, else unexpected, else duplicate |
| KeyGenerationFinish.FinishZeroShares | dkls23-core/src/protocols/dkg.rs:787-919 | the zero-share part of phase 4 with its error order |
| KeyGenerationFinish.FinishMultiplication | dkls23-core/src/protocols/dkg.rs:922-1052 | the multiplication part of phase 4 with its error order |
| KeyGenerationFinish.FinishChainCode | dkls23-core/src/protocols/dkg.rs:1057-1090 | the XOR of the opened auxiliary chain codes of parties 1 to n |
| KeyGenerationFinish.Phase4 | dkls23-core/src/protocols/dkg.rs:742-1126 | the whole phase, tied to the specification function that DkgAcceptance.Phase4Decides describes |
| KeyGenerationFinish.NeverMissing | dkls23-core/src/protocols/dkg.rs:787-974 | whatever was received, the zero-share and multiplication parts never report a missing message: only routing faults and failed verifications |
| DkgAcceptance.ZeroDecides | dkls23-core/src/protocols/dkg.rs:787-919 | accepted if and only if there is one commitment and one opening from each counterparty and they match; the seeds are the XORs, in increasing order |
| DkgAcceptance.CountNames | dkls23-core/src/protocols/dkg.rs:851-868 | messages from too few senders are answered with their number |
| DkgAcceptance.MulDecides | dkls23-core/src/protocols/dkg.rs:922-1052 | accepted if and only if there is one message from each counterparty and all base OT batches and proofs are accepted; the maps hold exactly those ends |
| DkgAcceptance.ChainDecides | dkls23-core/src/protocols/dkg.rs:1057-1090 | accepted if and only if the parts of all parties open; the chain code is their XOR, and a failure names the lowest party |
| DkgAcceptance.Phase4Decides | dkls23-core/src/protocols/dkg.rs:742-1126 | Ok if and only if step 5 accepts, neither key nor share is trivial, all commitments open and all set-up proofs are accepted; every field of party and package, and the error order |
| KeyGenerationRuns.FragmentsAddUp | dkls23-core/src/protocols/dkg.rs:328-334 | the fragments of a party, in any order, add up to the sum polynomial at its index |
| KeyGenerationRuns.Phase4Honest | dkls23-core/src/protocols/dkg.rs:742-1126 | with accepted proofs and no trivial key, phase 4 is Ok for every party and every order of messages, with the same public package |
| KeyGenerationRuns.KeyGenerationConsistent | dkls23-core/src/protocols/dkg.rs:742-1126 | the resulting parties are consistent: shares of (sum p_i)(0), pk its multiple of the generator, one XOR chain code, mirrored seeds, paired multiplications |
| DkgTampering.TamperedSeedNamed | dkls23-core/src/protocols/dkg.rs:871-919 | one changed seed opening in an otherwise honest run makes phase 4 fail and name its sender |
| DkgTampering.TamperedChainNamed | dkls23-core/src/protocols/dkg.rs:1057-1090 | one changed chain code opening makes phase 4 fail and name its party |
| DkgSessions.DkgSession.Phase2 | dkls23-core/src/protocols/dkg_session.rs:48-77 | refused after a first call; otherwise keeps what phases 3 and 4 need |
| DkgSessions.DkgSession.Phase3 | dkls23-core/src/protocols/dkg_session.rs:79-127 | refused before phase 2; consumes what phase 2 kept |
| DkgSessions.DkgSession.Phase4 | dkls23-core/src/protocols/dkg_session.rs:129-177 | refused before phases 2 and 3 |
| DkgSessions.SecondPhaseOnce | dkls23-core/src/protocols/dkg_session.rs:48-77 | phase 2 succeeds exactly once; a refused call changes nothing |
| DkgSessions.ThirdPhaseOnce | dkls23-core/src/protocols/dkg_session.rs:79-127 | phase 3 succeeds only on what phase 2 kept, hands on the seeds, and refuses a second call |
| KeyGenerationInterleavings.EveryInterleavingAgrees | dkls23-core/src/protocols/dkg_session.rs:43-177 | in every reachable state of every interleaving with correct routing nobody has aborted, and finished parties hold the consistent result |
| KeyGenerationInterleavings.RunsEnd | dkls23-core/src/protocols/dkg_session.rs:43-177 | no run has more than four steps per party, and after that many all parties are finished |
| KeyGenerationInterleavings.NoDeadlock | dkls23-core/src/protocols/dkg_session.rs:43-177 | as long as a party is not finished, some party can take a step |
| Signing.SignPhase1 | dkls23-core/src/protocols/signing.rs:247-417 | phase 1, tied to the specification function that SigningAcceptance.Phase1Decides describes |
| Signing.ComputeKeyShare | dkls23-core/src/protocols/signing.rs:460-479 | the running products give the Lagrange coefficient times the share plus zeta; none if the denominator is zero |
| Signing.SignPhase2 | dkls23-core/src/protocols/signing.rs:440-623 | phase 2, tied to the specification function that SigningAcceptance.Phase2Decides describes |
| Signing.SignPhase3 | dkls23-core/src/protocols/signing.rs:648-846 | phase 3, tied to the specification function that SigningAcceptance.Phase3Decides and Phase3StopsAt describe |
| SigningAlgebra.DenominatorZero | dkls23-core/src/protocols/signing.rs:460-478 | the Lagrange denominator is zero exactly if the party lists itself |
| SigningAlgebra.KeySharesSum | dkls23-core/src/protocols/signing.rs:460-479 | for every set of t parties and any listing of counterparties, no denominator is zero and the sum of l_i * p(i) + zeta_i is p(0) |
| SigningMessages.Phase2EachOnce | dkls23-core/src/protocols/signing.rs:490-527 | Ok from phase 2 on any slice means exactly one message from each counterparty |
| SigningMessages.Phase3EachOnce | dkls23-core/src/protocols/signing.rs:666-729 | Ok from phase 3 on any slice means exactly one acceptable message from each counterparty |
| SigningMessages.Phase3AnyOrder | dkls23-core/src/protocols/signing.rs:666-846 | x_coord, u and w are the same for every permutation of an accepted slice |
| SigningAlgebra.SharesAddUp | dkls23-core/src/protocols/signing.rs:798-840 | sums of k_i * (phi - masks) + outputs over all parties give (sum k_i) * phi |
| SigningAcceptance.Phase1Decides | dkls23-core/src/protocols/signing.rs:247-417 | Ok if and only if t - 1 different counterparties are listed, all known, not the party itself and with state of the right size; every message commits to the instance point |
| SigningAcceptance.FaultNames | dkls23-core/src/protocols/signing.rs:262-320 | the first counterparty that is unknown, repeated, the party itself or without state is named, in this order |
| SigningAcceptance.Phase2Decides | dkls23-core/src/protocols/signing.rs:440-623 | Ok if and only if the party does not list itself and the multiplication with one message from each counterparty is accepted; every kept value and answer is determined |
| SigningAcceptance.ContentDecides | dkls23-core/src/protocols/signing.rs:715-796 | a message is accepted if and only if its instance point opens the commitment, the multiplication is accepted, chi R = d_u G + Gamma_u and chi P = d_v G + Gamma_v; otherwise the sender is banned, except for a wrong opening |
| SigningAcceptance.Phase3Decides | dkls23-core/src/protocols/signing.rs:648-846 | Ok if and only if one acceptable message from each counterparty arrived, the public shares add up to pk and the instance points do not cancel; x, u and w as sums over all messages |
| SigningAcceptance.Phase3StopsAt | dkls23-core/src/protocols/signing.rs:666-796 | the first message that is not acceptable or repeats a sender decides the error |
| SigningAcceptance.PairIdsSeparated | dkls23-core/src/protocols/signing.rs:330-350 | multiplications of different ordered pairs have different session ids |
| Tampering.TamperedSenderBanned | dkls23-core/src/protocols/signing.rs:752-796 | in an otherwise honest run, a changed gamma_u, gamma_v or matrix hash gets its sender banned with the reason for it, in every order of arrival |
| Tampering.TamperedCheckBanned | dkls23-core/src/protocols/signing.rs:530-560 | a changed verify_t gets its sender banned in phase 2 |
| Bans.SigningBans | dkls23-core/src/protocols/signing.rs:559-796 | whatever is received: a ban names the sender of a message of that call that was expected and addressed here, and whose multiplication (phase 2), or after a correct opening its multiplication or one of the two point equations (phase 3), really failed; all other aborts of signing are recoverable |
| Bans.KeyGenerationRecovers | dkls23-core/src/protocols/dkg.rs:742-1126 | key generation never bans |
| Bans.RefreshRecovers | dkls23-core/src/protocols/refresh.rs:380-1177 | neither refresh ever bans |
| SigningRuns.Phase1Honest | dkls23-core/src/protocols/signing.rs:247-417 | phase 1 succeeds for every member of every t-subset |
| SigningOutcome.Phase2Honest | dkls23-core/src/protocols/signing.rs:440-623 | phase 2 succeeds for every order of messages: nobody aborts or is banned |
| SigningOutcome.Phase3ContentIs | dkls23-core/src/protocols/signing.rs:715-796 | commitment, multiplication and both consistency checks hold for an honest message |
| SigningOutcome.Phase3Honest | dkls23-core/src/protocols/signing.rs:648-846 | for every order of messages phase 3 succeeds exactly if no sender has drawn the instance key zero and the keys do not add up to zero; all members then get the same r |
| SigningOutcome.BroadcastSums | dkls23-core/src/protocols/signing.rs:798-840 | sum(u) = k * phi and sum(w) = phi * (m + r * sk) |
| SigningOutcome.Phase4Honest | dkls23-core/src/protocols/signing.rs:869-948 | for every order of broadcasts phase 4 is Ok exactly if k, phi and m + r * sk are non-zero and X(kG) is a non-zero canonical scalar; s is then s0 = k^-1 * (m + r * sk), negated exactly if a low s was asked for and s0 > n / 2, and (s, r, rec_id) recovers pk |
| Ecdsa.VerifyMeaning | dkls23-core/src/protocols/signing.rs:988-1031 | verification holds exactly if r and s are non-zero scalars and the x coordinate of (m + r * sk) / s * G reduces to r |
| Ecdsa.SingleSignerVerifies | dkls23-core/src/protocols/signing.rs:988-1031 | both signs of a single signer's s verify |
| Ecdsa.SignPhase4 | dkls23-core/src/protocols/signing.rs:869-948 | phase 4, tied to the specification function that Ecdsa.Phase4Decides and Phase4Sound describe |
| Ecdsa.LowS | dkls23-core/src/protocols/signing.rs:896-900 | the normalized s is the one of s and -s that is at most half the order |
| Ecdsa.Phase4Sound | dkls23-core/src/protocols/signing.rs:869-948 | every returned s is the quotient of the sums, negated exactly if a low s was asked for and it is high; it verifies, recovery bit 1 is clear and bit 0 the parity of the signature point, which recovers pk and is described by the recovery id if and only if its x coordinate is x_coord itself |
| Ecdsa.AssemblyCorrect | dkls23-core/src/protocols/signing.rs:869-948 | sums k * phi and phi * (m + r * sk) assemble to the single signer's s0, negated exactly if a low s was asked for and s0 > n / 2 |
| Ecdsa.AssemblyDecides | dkls23-core/src/protocols/signing.rs:869-948 | on shares with those sums phase 4 succeeds exactly if k, phi and m + r * sk are non-zero and X(kG) is a non-zero canonical scalar |
| Ecdsa.Phase4Decides | dkls23-core/src/protocols/signing.rs:869-948 | for arbitrary broadcasts: Ok if and only if both sums and x are non-zero, x is canonical and the x coordinate of (m + x sk) u / w * G reduces to x; the error says which sum or check failed |
| SignSessions.SignSession.Start | dkls23-core/src/protocols/sign_session.rs:20-33 | a new session holds what phase 1 kept |
| SignSessions.SignSession.Phase2 | dkls23-core/src/protocols/sign_session.rs:35-52 | takes what phase 1 left; a failure leaves nothing pending |
| SignSessions.SignSession.Phase3 | dkls23-core/src/protocols/sign_session.rs:54-68 | takes what phase 2 left |
| SignSessions.SignSession.Phase4 | dkls23-core/src/protocols/sign_session.rs:70-106 | takes the x coordinate of phase 3 |
| SignSessions.PhasesInOrder | dkls23-core/src/protocols/sign_session.rs:35-106 | a call out of order fails and changes nothing; the pending phase leaves exactly the next one pending if it succeeds and nothing if it fails |
| SigningInterleavings.EveryInterleavingSigns | dkls23-core/src/protocols/sign_session.rs:19-107 | in every reachable state of every interleaving under honest routing, whatever was drawn: a member has aborted only if the run is not signable, and has a signature only if it is; s is the single signer's, negated exactly if a low s was asked for and it is high, r is common, and the signature recovers pk |
| SigningInterleavings.SigningDecided | dkls23-core/src/protocols/sign_session.rs:19-107 | some interleaving leaves all members with a signature if and only if every k_i, k, phi and m + r * sk are non-zero and X(kG) is a non-zero canonical scalar |
| SigningInterleavings.RunsEnd | dkls23-core/src/protocols/sign_session.rs:19-107 | no run has more than four steps per member, and after that many all members of a signable run have their signature |
| SigningInterleavings.NoDeadlock | dkls23-core/src/protocols/sign_session.rs:19-107 | as long as a member of a signable run has no signature, some member can take a step |
| Refresh.RefreshPhase1 | dkls23-core/src/protocols/refresh.rs:176-188 | the values of a polynomial with zero constant term |
| Refresh.RefreshPhase2 | dkls23-core/src/protocols/refresh.rs:197-245 | the correction value is the sum of the fragments, with a committed proof under the refresh session id |
| Refresh.RefreshCompletePhase4 | dkls23-core/src/protocols/refresh.rs:380-714 | complete refresh, phase 4, with its error order |
| Refresh.RefreshPhase4 | dkls23-core/src/protocols/refresh.rs:849-1177 | fast refresh, phase 4, with its error order |
| FastRefresh.RefreshInPlace | dkls23-core/src/protocols/refresh.rs:1040-1123 | the loop overwrites correlation, seeds, seeds0 and seeds1 in place with the states that RefreshAcceptance.SenderRefreshed and ReceiverRefreshed describe position by position |
| FastRefresh.TrickKeepsRelation | dkls23-core/src/protocols/refresh.rs:1054-1123 | for any r0', r1' and b' the sender's new seed is the receiver's new seed that the new bit selects |
| FastRefresh.RefreshKeepsMatching | dkls23-core/src/protocols/refresh.rs:1040-1123 | run independently by both parties with mirrored index bytes, the loop keeps the OT relation at all positions |
| RefreshAcceptance.SenderRefreshed | dkls23-core/src/protocols/refresh.rs:1040-1123 | at all 256 positions the new bit is the old one XOR the parity of the hash under the tag b, the new seed the old one XOR the hash under r1 or r0 as the new bit selects; other positions stay |
| RefreshAcceptance.ReceiverRefreshed | dkls23-core/src/protocols/refresh.rs:1040-1123 | at all 256 positions both seeds are swapped if b' is set and XORed with the hashes under r0 and r1; other positions stay |
| RefreshAcceptance.PositionsSeparated | dkls23-core/src/protocols/refresh.rs:1040-1080 | different tags, positions or ordered pairs hash different bytes |
| RefreshAcceptance.CompleteDecides | dkls23-core/src/protocols/refresh.rs:380-714 | a complete refresh is Ok if and only if the points share zero, all seeds open and all set-up proofs are accepted; which fields change |
| RefreshAcceptance.FastDecides | dkls23-core/src/protocols/refresh.rs:849-1177 | a fast refresh is Ok if and only if the points share zero, all seeds open and there is state for every counterparty; all of it is refreshed |
| Refresh.AcceptanceSharesZero | dkls23-core/src/protocols/refresh.rs:396-411 | whatever the dealers' polynomials: acceptance with broadcast points correction_j * G forces the corrections to be values of one polynomial with t coefficients and zero at 0 |
| ReachableStates.CompleteKeeps | dkls23-core/src/protocols/refresh.rs:380-714 | after a complete refresh by all parties the same key is shared consistently again, with new seeds and multiplications |
| ReachableStates.FastKeeps | dkls23-core/src/protocols/refresh.rs:849-1177 | the same for the fast refresh |
| ReachableStates.HonestComplete | dkls23-core/src/protocols/refresh.rs:380-714 | an honest complete refresh succeeds for every party and every order of messages |
| ReachableStates.HonestFast | dkls23-core/src/protocols/refresh.rs:849-1177 | an honest fast refresh succeeds likewise |
| ReachableStates.ActionKeeps | dkls23-core/src/protocols/refresh.rs:685-713 | each action of all parties keeps them consistent; refreshing keeps the key and chain code, deriving moves them as CKDpriv does |
| ReachableStates.AlwaysJoint | dkls23-core/src/protocols/refresh.rs:1144-1176 | every state reachable by any sequence of complete refreshes, fast refreshes and same-index derivations is consistent |
| ReachableStates.KeyGenerationJoint | dkls23-core/src/protocols/dkg.rs:742-1126 | key generation leaves the parties in a state from which such histories start |
| EndToEnd.EveryReachableStateSigns | dkls23-core/src/protocols/sign_session.rs:19-107 | after any history of refreshes and derivations every group of t parties signs exactly if the run is signable: no interleaving then aborts, some interleaving finishes, and the signatures are those of the shared secret, whose multiple of the generator is pk |
| EndToEnd.PackageDescribesParties | dkls23-core/src/protocols/dkg.rs:1123-1125 | the public package returned by key generation has the key and the share of every party in the exponent |
| Derivation.DeriveOne | dkls23-core/src/protocols/derivation.rs:156-258 | a party derives a child exactly if it is above level 255, the child number is below 2^31 and CKDpriv of the shared secret, stated from BIP-32, succeeds; its share moves as the secret does; otherwise the error is determined |
| Derivation.DeriveChildIs | dkls23-core/src/protocols/derivation.rs:107-197 | with I the HMAC-SHA512 of key and child number: the left half is added to share and key, the right half is the chain code, and depth, number, fingerprint and errors are as BIP-32 has them |
| Derivation.DeriveShared | dkls23-core/src/protocols/derivation.rs:156-258 | all parties succeed together, under the same condition, and then share the CKDpriv child consistently |
| Derivation.DeriveSharedFromPath | dkls23-core/src/protocols/derivation.rs:266-293 | for every string: all parties succeed together, exactly if the path parses, stays within 255 levels and CKDpriv succeeds along it; they then share the secret derived along the path consistently |
| Derivation.DeriveFromPathOf | dkls23-core/src/protocols/derivation.rs:203-213 | the loop over the parsed path |
| Derivation.DeriveConcat | dkls23-core/src/protocols/derivation.rs:203-213 | deriving along p then q is deriving along their concatenation |
| Derivation.PathConcat | dkls23-core/src/protocols/derivation.rs:203-213 | for printed paths, including the depth bounds: both ways succeed together and agree |
| Derivation.DerivationCommutes | dkls23-core/src/protocols/derivation.rs:156-213 | interpolating t shares derived along any path gives CKDpriv of the secret along the path |
| Derivation.PackageAgrees | dkls23-core/src/protocols/derivation.rs:305-361 | deriving the public package succeeds or fails with the parties exactly if they are above level 255 or the package fails too; whenever the parties derive a child, the derived package describes them |
| Derivation.DerivePackageIs | dkls23-core/src/protocols/derivation.rs:305-361 | the left half of the same HMAC is added in the exponent to the key and to every share |
| Derivation.PackageFollowsReference | dkls23-core/src/protocols/derivation.rs:305-361 | the package derives exactly the children below 2^31 for which CKDpriv of the secret succeeds, at every level |
| Derivation.PackageOutlivesParties | dkls23-core/src/protocols/derivation.rs:305-361 | at level 255 every party refuses every child, while the package derives each child for which CKDpriv succeeds |
| Paths.ParsePathOf | dkls23-core/src/protocols/derivation.rs:369-394 | the parsing loop with its errors |
| Paths.ParsedBounds | dkls23-core/src/protocols/derivation.rs:369-394 | whatever the string, an accepted path has at most 255 numbers, all below 2^31 |
| Paths.ParsePathMeaning | dkls23-core/src/protocols/derivation.rs:369-394 | for all strings: accepted are exactly "m" followed by a slash and a numeral below 2^31 for each of at most 255 numbers; more are too long, all else is invalid |
| Paths.PartMeaning | dkls23-core/src/protocols/derivation.rs:378-387 | a numeral is a non-empty string of digits, perhaps after a plus sign and with leading zeros |
| Paths.ParseInvertsPrint | dkls23-core/src/protocols/derivation.rs:369-394 | parsing a printed path gives the numbers back exactly if there are at most 255 and all are below 2^31; otherwise the error is determined |

## Left out

- Curve and field arithmetic, SHA-256, HMAC and RIPEMD themselves: unknown functions, as described above.
- Quality of randomness, zeroization, `Drop`, constant-time comparison and timing: not functional properties;
  `ct_eq` is equality.
- Security claims (hiding, binding, zero knowledge, soundness probabilities): only algebraic statements are proved.
- Irreducibility of X^208 + X^9 + X^3 + X + 1: the protocol equations hold in the quotient ring.
- Payload serialisation: frames carry opaque payload bytes.
- Hexadecimal text: the x coordinate and s are numbers; a string that is not hexadecimal is not part of this model.
- Descriptions inside errors, `Display` texts, `PartyIndex` and `Parameters` constructors, `EcdsaSignature::to_bytes`.
- Address derivation in the curve crates: the address is an unknown function of the public key.
- Arithmetic without overflow checks: at 255 parties the overflow in step 5 is a panic here.
- Nonzero sampling of the base OT secret s (`OTSender::init`): s is an arbitrary drawn scalar.
- Byte-wise inner loops of the OT extension (XOR, masking by a bit) are the row operations `XorBytes` and `Mask`.
- OTExtension.ExpandSeed: the receiver's loop that expands two seeds side by side is two uses of this method.
- Signing.CounterpartyFault: the four checks on one counterparty are one expression; the loop over them is a method.
- Session phase labels: all calls out of order give one error value, without the label text.
- `PublicKeyPackage` after a refresh: refresh returns only parties, so no package is claimed to match them.
- ReachableStates.CompleteStep: the seeds and multiplication messages of a refresh are delivered unchanged; only the
  dealers' polynomials and the committed points are arbitrary.
