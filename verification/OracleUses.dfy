/** Every use of the hash function: what is hashed where, and that different uses never hash the same bytes. */
module OracleUses {
  import opened Outcomes
  import opened PrimeField
  import opened Hashes
  import opened Curve
  import opened OracleTags
  import opened Transpose
  import opened Proofs
  import opened BaseOT
  import opened BinaryField
  import opened OTExtension
  import opened Multiplication
  import opened Protocols
  import opened ZeroShares
  import opened FastRefresh

  /** One query to the hash function. */
  datatype Query =
    | Commit(salt: Bytes, msg: Bytes)
    | FischlinProof(sid: Bytes, body: Bytes)
    | ProofCommit(sid: Bytes, body: Bytes)
    | EncStatement(sid: Bytes, body: Bytes)
    | ZeroFragment(sid: Bytes, seed: Bytes)
    | BasePoint(sid: Bytes, seed: Bytes)
    | BaseMessage(sid: Bytes, point: Bytes)
    | PrgBlock(sid: Bytes, index: nat, count: nat, seed: Bytes)
    | CheckWeight(sid: Bytes, name: Bytes, u: Bytes)
    | RowScalar(sid: Bytes, column: nat, iteration: nat, row: Bytes)
    | GadgetScalar(sid: Bytes, counter: Bytes)
    | ChiTilde(sid: Bytes, index: nat, transcript: Bytes)
    | ChiHat(sid: Bytes, index: nat, transcript: Bytes)
    | MatrixDigest(sid: Bytes, matrix: Bytes)
    | RefreshMask(which: nat, sid: Bytes, index: nat, sender: nat, receiver: nat, seed: Bytes)

  function TagOf(q: Query): Bytes {
    match q
    case Commit(_, _) => TAG_COMMITMENT
    case FischlinProof(_, _) => TAG_DLOG_PROOF_FISCHLIN
    case ProofCommit(_, _) => TAG_DLOG_PROOF_COMMITMENT
    case EncStatement(_, _) => TAG_ENCPROOF_FS
    case ZeroFragment(_, _) => TAG_ZERO_SHARE_FRAGMENT
    case BasePoint(_, _) => TAG_OT_BASE_H
    case BaseMessage(_, _) => TAG_OT_BASE_MSG
    case PrgBlock(_, _, _, _) => TAG_OTE_PRG
    case CheckWeight(_, _, _) => TAG_OTE_CHI
    case RowScalar(_, _, _, _) => TAG_OTE_RANDOMIZE
    case GadgetScalar(_, _) => TAG_MUL_GADGET
    case ChiTilde(_, _, _) => TAG_MUL_CHI_TILDE
    case ChiHat(_, _, _) => TAG_MUL_CHI_HAT
    case MatrixDigest(_, _) => TAG_MUL_VERIFY
    case RefreshMask(which, _, _, _, _, _) =>
      if which == 0 then TAG_REFRESH_FAST_R0 else if which == 1 then TAG_REFRESH_FAST_R1 else TAG_REFRESH_FAST_B
  }

  function PartsOf(q: Query): seq<Bytes> {
    match q
    case Commit(salt, msg) => [salt, msg]
    case FischlinProof(sid, body) => [sid, body]
    case ProofCommit(sid, body) => [sid, body]
    case EncStatement(sid, body) => [sid, body]
    case ZeroFragment(sid, seed) => [sid, seed]
    case BasePoint(sid, seed) => [sid, seed]
    case BaseMessage(sid, point) => [sid, point]
    case PrgBlock(sid, index, count, seed) => [sid, BigEndian(index, 2), BigEndian(count, 2), seed]
    case CheckWeight(sid, name, u) => [sid, name, u]
    case RowScalar(sid, column, iteration, row) => [sid, BigEndian(column, 2), BigEndian(iteration, 1), row]
    case GadgetScalar(sid, counter) => [sid, counter]
    case ChiTilde(sid, index, transcript) => [sid, BigEndian(index, 1), transcript]
    case ChiHat(sid, index, transcript) => [sid, BigEndian(index, 1), transcript]
    case MatrixDigest(sid, matrix) => [sid, matrix]
    case RefreshMask(_, sid, index, sender, receiver, seed) =>
      [sid, BigEndian(index, 2), BigEndian(sender, 2), BigEndian(receiver, 2), seed]
  }

  /** The bytes handed to SHA-256. */
  function Preimage(q: Query): Bytes {
    Encode([TagOf(q)] + PartsOf(q))
  }

  /** Numbers fit in the bytes that are spent on them, and byte strings have less than 2^64 bytes. */
  predicate Bounded(q: Query) {
    && Encodable([TagOf(q)] + PartsOf(q))
    && (q.PrgBlock? ==> q.index < 0x10000 && q.count < 0x10000)
    && (q.RowScalar? ==> q.column < 0x10000 && q.iteration < 0x100)
    && (q.ChiTilde? ==> q.index < 0x100) && (q.ChiHat? ==> q.index < 0x100)
    && (q.RefreshMask? ==> q.which < 3 && q.index < 0x10000 && q.sender < 0x10000 && q.receiver < 0x10000)
  }

  // The tags

  /** A number for every tag, read off its length and one or two of its characters. */
  function TextNumber(t: string): nat {
    if |t| == 19 then 5
    else if |t| == 20 then (if t[7] == 'c' then 0 else if t[11] == 'g' then 10 else 13)
    else if |t| == 21 then (if t[7] == 'o' then 6 else 12)
    else if |t| == 23 then (if t[7] == 'p' then 3 else 11)
    else if |t| == 24 then 16
    else if |t| == 25 then (if t[21] == '0' then 14 else 15)
    else if |t| == 26 then (if t[20] == 'p' then 7 else 8)
    else if |t| == 29 then 4
    else if |t| == 30 then 1
    else if |t| == 32 then (if t[7] == 'p' then 2 else 9)
    else 17
  }

  function Text(t: Bytes): string {
    seq(|t|, k requires 0 <= k < |t| => t[k] as char)
  }

  /** The number of a tag. */
  function TagNumber(t: Bytes): nat {
    TextNumber(Text(t))
  }

  lemma TextOfAscii(s: string)
    requires forall k :: 0 <= k < |s| ==> s[k] < 128 as char
    ensures Text(Ascii(s)) == s
  {
    forall k | 0 <= k < |s| ensures Text(Ascii(s))[k] == s[k] {
      assert Ascii(s)[k] as int == s[k] as int;
    }
  }

  lemma CommitmentNumbers()
    ensures TagNumber(TAG_COMMITMENT) == 0 && TagNumber(TAG_DLOG_PROOF_COMMITMENT) == 2
  {
    hide Text, Ascii;
    TextOfAscii("dkls23/commitment/v1");
    TextOfAscii("dkls23/proofs/dlog/commitment/v1");
  }

  lemma ProofNumbers()
    ensures TagNumber(TAG_DLOG_PROOF_FISCHLIN) == 1 && TagNumber(TAG_ENCPROOF_FS) == 3
  {
    hide Text, Ascii;
    TextOfAscii("dkls23/proofs/dlog/fischlin/v1");
    TextOfAscii("dkls23/proofs/enc/fs/v1");
  }

  lemma SeedNumbers()
    ensures TagNumber(TAG_ZERO_SHARE_FRAGMENT) == 4 && TagNumber(TAG_OT_BASE_H) == 5 && TagNumber(TAG_OT_BASE_MSG) == 6
  {
    hide Text, Ascii;
    TextOfAscii("dkls23/zero-share/fragment/v1");
    TextOfAscii("dkls23/ot/base/h/v1");
    TextOfAscii("dkls23/ot/base/msg/v1");
  }

  lemma TransferNumbers()
    ensures TagNumber(TAG_OTE_PRG) == 7 && TagNumber(TAG_OTE_CHI) == 8
  {
    hide Text, Ascii;
    TextOfAscii("dkls23/ot/extension/prg/v1");
    TextOfAscii("dkls23/ot/extension/chi/v1");
  }

  lemma RandomizeNumber()
    ensures TagNumber(TAG_OTE_RANDOMIZE) == 9
  {
    hide Text, Ascii;
    TextOfAscii("dkls23/ot/extension/randomize/v1");
  }

  lemma MultiplicationNumbers()
    ensures TagNumber(TAG_MUL_GADGET) == 10 && TagNumber(TAG_MUL_CHI_TILDE) == 11
    ensures TagNumber(TAG_MUL_CHI_HAT) == 12 && TagNumber(TAG_MUL_VERIFY) == 13
  {
    hide Text, Ascii;
    TextOfAscii("dkls23/mul/gadget/v1");
    TextOfAscii("dkls23/mul/chi-tilde/v1");
    TextOfAscii("dkls23/mul/chi-hat/v1");
    TextOfAscii("dkls23/mul/verify/v1");
  }

  lemma RefreshNumbers()
    ensures TagNumber(TAG_REFRESH_FAST_R0) == 14 && TagNumber(TAG_REFRESH_FAST_R1) == 15 && TagNumber(TAG_REFRESH_FAST_B) == 16
  {
    hide Text, Ascii;
    TextOfAscii("dkls23/refresh/fast/r0/v1");
    TextOfAscii("dkls23/refresh/fast/r1/v1");
    TextOfAscii("dkls23/refresh/fast/b/v1");
  }

  /** No two of the 17 tags are the same. */
  lemma TagNumbers()
    ensures TagNumber(TAG_COMMITMENT) == 0 && TagNumber(TAG_DLOG_PROOF_FISCHLIN) == 1 && TagNumber(TAG_DLOG_PROOF_COMMITMENT) == 2
    ensures TagNumber(TAG_ENCPROOF_FS) == 3 && TagNumber(TAG_ZERO_SHARE_FRAGMENT) == 4 && TagNumber(TAG_OT_BASE_H) == 5
    ensures TagNumber(TAG_OT_BASE_MSG) == 6 && TagNumber(TAG_OTE_PRG) == 7 && TagNumber(TAG_OTE_CHI) == 8
    ensures TagNumber(TAG_OTE_RANDOMIZE) == 9 && TagNumber(TAG_MUL_GADGET) == 10 && TagNumber(TAG_MUL_CHI_TILDE) == 11
    ensures TagNumber(TAG_MUL_CHI_HAT) == 12 && TagNumber(TAG_MUL_VERIFY) == 13 && TagNumber(TAG_REFRESH_FAST_R0) == 14
    ensures TagNumber(TAG_REFRESH_FAST_R1) == 15 && TagNumber(TAG_REFRESH_FAST_B) == 16
  {
    hide TagNumber;
    CommitmentNumbers();
    ProofNumbers();
    SeedNumbers();
    TransferNumbers();
    RandomizeNumber();
    MultiplicationNumbers();
    RefreshNumbers();
  }

  lemma SameBigEndian(a: nat, b: nat, k: nat)
    requires a < Pow256(k) && b < Pow256(k) && BigEndian(a, k) == BigEndian(b, k)
    ensures a == b
  {
    BigEndianRoundTrip(a, k);
    BigEndianRoundTrip(b, k);
  }

  /** Queries of the same kind with the same parts agree. */
  lemma SameParts(a: Query, b: Query)
    requires Bounded(a) && Bounded(b) && TagNumber(TagOf(a)) == TagNumber(TagOf(b)) && PartsOf(a) == PartsOf(b)
    ensures a == b
  {
    hide TagNumber, BigEndian, Pow256, Encodable;
    TagNumbers();
    assert Pow256(1) == 0x100 && Pow256(2) == 0x10000 by { Powers(); }
    match a
    case PrgBlock(_, _, _, _) =>
      SameBigEndian(a.index, b.index, 2);
      SameBigEndian(a.count, b.count, 2);
    case RowScalar(_, _, _, _) =>
      SameBigEndian(a.column, b.column, 2);
      SameBigEndian(a.iteration, b.iteration, 1);
    case ChiTilde(_, _, _) => SameBigEndian(a.index, b.index, 1);
    case ChiHat(_, _, _) => SameBigEndian(a.index, b.index, 1);
    case RefreshMask(_, _, _, _, _, _) =>
      SameBigEndian(a.index, b.index, 2);
      SameBigEndian(a.sender, b.sender, 2);
      SameBigEndian(a.receiver, b.receiver, 2);
    case _ =>
  }

  lemma Powers()
    ensures Pow256(1) == 0x100 && Pow256(2) == 0x10000
  {
    assert Pow256(0) == 1;
  }

  /** Different queries hash different bytes. */
  lemma QueriesSeparated(a: Query, b: Query)
    requires Bounded(a) && Bounded(b) && Preimage(a) == Preimage(b)
    ensures a == b
  {
    hide TagOf, PartsOf, Encode, TagNumber;
    TaggedEncodingInjective(TagOf(a), PartsOf(a), TagOf(b), PartsOf(b));
    SameParts(a, b);
  }

  // Who asks what

  ghost function Answer(q: Query): HashOutput {
    Sha256(Preimage(q))
  }

  lemma ProofQueries(sid: Bytes, rc: Bytes, index: nat, p: InteractiveDLogProof, proof: DLogProof, g: Point, h: Point, u: Point,
                     v: Point, rc0: RandomCommitments, rc1: RandomCommitments)
    ensures FischlinHash(sid, rc, index, p)
            == Answer(FischlinProof(sid, PointBytes(GENERATOR) + rc + BigEndian(index, 2) + p.challenge + ScalarBytes(p.response)))[0]
    ensures ProofCommitmentHash(proof, sid)
            == Answer(ProofCommit(sid, PointBytes(proof.point) + PointsBytes(proof.rand_commitments)
                                       + ChallengesBytes(proof.proofs) + ResponsesBytes(proof.proofs)))
    ensures EncChallenge(sid, g, h, u, v, rc0, rc1)
            == ReduceHash(Answer(EncStatement(sid, PointBytes(g) + PointBytes(h) + PointBytes(u) + PointBytes(v)
                 + PointBytes(rc0.rc_g) + PointBytes(rc0.rc_h) + PointBytes(rc1.rc_g) + PointBytes(rc1.rc_h))))
  {
    hide PointsBytes, ChallengesBytes, ResponsesBytes, Encode;
  }

  lemma SeedQueries(sid: Bytes, seed: HashOutput, p: Point, msg: Bytes, salt: Bytes)
    ensures Commitment(msg, salt) == Answer(Commit(salt, msg))
    ensures Fragment(sid, seed) == ReduceHash(Answer(ZeroFragment(sid, seed)))
    ensures SeedPoint(sid, seed) == Base(ReduceHash(Answer(BasePoint(sid, seed))))
    ensures Message(sid, p) == Answer(BaseMessage(sid, PointBytes(p)))
  {
    hide Encode;
  }

  lemma TransferQueries(sid: Bytes, i: nat, j: nat, seed: HashOutput, name: string, u: seq<PRGOutput>)
    ensures Chunk(sid, i, j, seed) == Answer(PrgBlock(sid, i, j, seed))
    ensures Chi(sid, name, u) == Answer(CheckWeight(sid, Ascii(name), Concat(u)))[..26]
    ensures Randomize(sid, j, i, seed) == ReduceHash(Answer(RowScalar(sid, j, i, seed)))
  {
    hide Encode, Concat;
  }

  lemma MultiplicationQueries(sid: Bytes, counter: Scalar, i: nat, transcript: Bytes, matrix: seq<seq<Scalar>>)
    ensures GadgetEntry(sid, counter) == ReduceHash(Answer(GadgetScalar(sid, ScalarBytes(counter))))
    ensures ChiEntry(TAG_MUL_CHI_TILDE, sid, i, transcript) == ReduceHash(Answer(ChiTilde(sid, i, transcript)))
    ensures ChiEntry(TAG_MUL_CHI_HAT, sid, i, transcript) == ReduceHash(Answer(ChiHat(sid, i, transcript)))
    ensures MatrixHash(sid, matrix) == Answer(MatrixDigest(sid, MatrixBytes(matrix)))
  {
    hide Encode, MatrixBytes;
  }

  lemma RefreshQueries(sid: Bytes, i: nat, sender: PartyIndex, receiver: PartyIndex, seed: HashOutput)
    ensures MaskAt(sid, i, sender, receiver, seed)
            == Mask3(Answer(RefreshMask(0, sid, i, sender, receiver, seed)), Answer(RefreshMask(1, sid, i, sender, receiver, seed)),
                     Answer(RefreshMask(2, sid, i, sender, receiver, seed))[0] % 2 == 1)
  {
    hide Encode;
  }

  // Lists are serialised element by element

  lemma {:induction false} PointsAppend(a: seq<Point>, b: seq<Point>)
    ensures PointsBytes(a + b) == PointsBytes(a) + PointsBytes(b)
    decreases |b|
  {
    if b == [] {
      assert a + b == a;
    } else {
      var k := |b| - 1;
      PointsAppend(a, b[..k]);
      assert (a + b)[..|a + b| - 1] == a + b[..k];
    }
  }

  lemma {:induction false} ProofsAppend(a: seq<InteractiveDLogProof>, b: seq<InteractiveDLogProof>)
    ensures ChallengesBytes(a + b) == ChallengesBytes(a) + ChallengesBytes(b)
    ensures ResponsesBytes(a + b) == ResponsesBytes(a) + ResponsesBytes(b)
    decreases |a|
  {
    if a == [] {
      assert a + b == b;
    } else {
      ProofsAppend(a[1..], b);
      assert (a + b)[1..] == a[1..] + b;
    }
  }

  lemma {:induction false} RowsAppend(a: seq<PRGOutput>, b: seq<PRGOutput>)
    ensures Concat(a + b) == Concat(a) + Concat(b)
    decreases |a|
  {
    if a == [] {
      assert a + b == b;
    } else {
      RowsAppend(a[1..], b);
      assert (a + b)[1..] == a[1..] + b;
    }
  }

  lemma {:induction false} ElementsAppend(a: seq<FieldElement>, b: seq<FieldElement>)
    ensures ConcatElements(a + b) == ConcatElements(a) + ConcatElements(b)
    decreases |a|
  {
    if a == [] {
      assert a + b == b;
    } else {
      ElementsAppend(a[1..], b);
      assert (a + b)[1..] == a[1..] + b;
    }
  }

  lemma {:induction false} ScalarsAppend(a: seq<Scalar>, b: seq<Scalar>)
    ensures RowBytes(a + b) == RowBytes(a) + RowBytes(b)
    decreases |b|
  {
    if b == [] {
      assert a + b == a;
    } else {
      var k := |b| - 1;
      ScalarsAppend(a, b[..k]);
      assert (a + b)[..|a + b| - 1] == a + b[..k];
    }
  }

  lemma {:induction false} MatricesAppend(a: seq<seq<Scalar>>, b: seq<seq<Scalar>>)
    ensures MatrixBytes(a + b) == MatrixBytes(a) + MatrixBytes(b)
    decreases |b|
  {
    hide RowBytes;
    if b == [] {
      assert a + b == a;
    } else {
      var k := |b| - 1;
      MatricesAppend(a, b[..k]);
      assert (a + b)[..|a + b| - 1] == a + b[..k];
    }
  }

  /** Each list is the concatenation of its elements' encodings, in order: rows and elements of fixed length can be read
      back. */
  lemma SingleElements(p: Point, q: InteractiveDLogProof, row: PRGOutput, e: FieldElement, x: Scalar, line: seq<Scalar>)
    ensures PointsBytes([p]) == PointBytes(p) && ChallengesBytes([q]) == q.challenge && ResponsesBytes([q]) == ScalarBytes(q.response)
    ensures Concat([row]) == row && ConcatElements([e]) == e && RowBytes([x]) == ScalarBytes(x) && MatrixBytes([line]) == RowBytes(line)
  {
    assert [p][..0] == [] && [x][..0] == [] && [line][..0] == [] && [q][1..] == [] && [row][1..] == [] && [e][1..] == [];
  }

  /** Lists of rows of the same length have different serialisations, so the check weights depend on every byte of u. */
  lemma {:induction false} RowsInjective(a: seq<PRGOutput>, b: seq<PRGOutput>)
    requires |a| == |b| && Concat(a) == Concat(b)
    ensures a == b
    decreases |a|
  {
    if a != [] {
      assert a[0] == Concat(a)[..78] && b[0] == Concat(b)[..78];
      assert Concat(a[1..]) == Concat(a)[78..] && Concat(b[1..]) == Concat(b)[78..];
      RowsInjective(a[1..], b[1..]);
    }
  }

  lemma {:induction false} RowInjective(a: seq<Scalar>, b: seq<Scalar>)
    requires |a| == |b|
    ensures |RowBytes(a)| == |RowBytes(b)|
    ensures RowBytes(a) == RowBytes(b) ==> a == b
  {
    if a != [] {
      var k := |a| - 1;
      RowInjective(a[..k], b[..k]);
      ScalarBytesInjective(a[k], b[k]);
      SameEnds(RowBytes(a[..k]), ScalarBytes(a[k]), RowBytes(b[..k]), ScalarBytes(b[k]));
      assert a == a[..k] + [a[k]] && b == b[..k] + [b[k]];
    }
  }

  lemma SameEnds(s: Bytes, t: Bytes, s': Bytes, t': Bytes)
    requires |t| == |t'|
    ensures s + t == s' + t' ==> s == s' && t == t'
  {
    if s + t == s' + t' {
      assert (s + t)[..|s|] == s && (s + t)[|s|..] == t;
      assert (s' + t')[..|s'|] == s' && (s' + t')[|s'|..] == t';
    }
  }

  /** Matrices of the same shape have different serialisations. */
  lemma {:induction false} MatrixInjective(a: seq<seq<Scalar>>, b: seq<seq<Scalar>>)
    requires |a| == |b| && forall i :: 0 <= i < |a| ==> |a[i]| == |b[i]|
    ensures |MatrixBytes(a)| == |MatrixBytes(b)|
    ensures MatrixBytes(a) == MatrixBytes(b) ==> a == b
  {
    hide RowBytes;
    if a != [] {
      var k := |a| - 1;
      MatrixInjective(a[..k], b[..k]);
      RowInjective(a[k], b[k]);
      SameEnds(MatrixBytes(a[..k]), RowBytes(a[k]), MatrixBytes(b[..k]), RowBytes(b[k]));
      assert a == a[..k] + [a[k]] && b == b[..k] + [b[k]];
    }
  }
}
