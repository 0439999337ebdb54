/** The frame layer of the message exchange. A payload is the serialised message; turning messages
    into payloads and back is not part of this model. */
module Messages {
  import opened Bits
  import opened Outcomes
  import opened Hashes

  datatype Frame = Frame(tag: Byte, payload: Bytes)

  datatype MessageError =
    | PayloadTooLong
    | NotFound(sender: nat)
    | TruncatedHeader
    | TruncatedPayload

  const FRAME_HEADER_LEN: nat := 5

  function EncodeFrame(f: Frame): Bytes {
    [f.tag] + BigEndian(|f.payload|, 4) + f.payload
  }

  function EncodeAll(frames: seq<Frame>): Bytes {
    if frames == [] then [] else EncodeFrame(frames[0]) + EncodeAll(frames[1..])
  }

  /** The payload length fits in a u32. */
  predicate Sendable(f: Frame) {
    |f.payload| < Pow256(4)
  }

  /** A non-empty stream that ends inside its first frame. */
  predicate Truncated(s: Bytes) {
    s != [] && (|s| < FRAME_HEADER_LEN || |s| < FRAME_HEADER_LEN + FromBigEndian(s[1..5]))
  }

  ghost predicate Passes(frames: seq<Frame>, tag: Byte) {
    forall i :: 0 <= i < |frames| ==> Sendable(frames[i]) && frames[i].tag != tag
  }

  // What a search must find, independently of how it searches

  ghost predicate Finds(stream: Bytes, tag: Byte, payload: Bytes) {
    exists frames: seq<Frame>, rest: Bytes ::
      Passes(frames, tag) && |payload| < Pow256(4) && stream == EncodeAll(frames) + (EncodeFrame(Frame(tag, payload)) + rest)
  }

  ghost predicate Exhausts(stream: Bytes, tag: Byte) {
    exists frames: seq<Frame> :: Passes(frames, tag) && stream == EncodeAll(frames)
  }

  /** The stream ends inside a header, or, if not in_header, inside a payload. */
  ghost predicate BreaksOff(stream: Bytes, tag: Byte, in_header: bool) {
    exists frames: seq<Frame>, rest: Bytes ::
      Passes(frames, tag) && Truncated(rest) && (in_header <==> |rest| < 5) && stream == EncodeAll(frames) + rest
  }

  /** encode_frame, given the serialised message: the tag, the length with its most significant byte first, the payload. */
  method EncodeMessage(tag: Byte, payload: Bytes) returns (r: Result<Bytes, MessageError>)
    ensures |payload| < Pow256(4) ==> r == Ok(EncodeFrame(Frame(tag, payload)))
    ensures r.Ok? <==> |payload| < 0x1_0000_0000
    ensures r.Ok? ==>
      && |r.value| == 5 + |payload| && r.value[0] == tag && r.value[5..] == payload
      && r.value[1] as int * 0x100_0000 + r.value[2] as int * 0x1_0000 + r.value[3] as int * 0x100 + r.value[4] as int == |payload|
    ensures r.Err? ==> r.error == PayloadTooLong
  {
    FourBytes(|payload|);
    if |payload| >= Pow256(4) {
      return Err(PayloadTooLong);
    }
    var buf := [tag];
    buf := buf + BigEndian(|payload|, 4);
    buf := buf + payload;
    return Ok(buf);
  }

  lemma FourBytes(n: nat)
    ensures Pow256(4) == 0x1_0000_0000
    ensures n < 0x1_0000_0000 ==>
      var b := BigEndian(n, 4);
      b[0] as int * 0x100_0000 + b[1] as int * 0x1_0000 + b[2] as int * 0x100 + b[3] as int == n
  {
    hide FromBigEndian;
    assert Pow256(1) == 0x100 && Pow256(2) == 0x1_0000 && Pow256(3) == 0x100_0000;
    if n < 0x1_0000_0000 {
      BigEndianRoundTrip(n, 4);
      FourByteValue(BigEndian(n, 4));
    }
  }

  lemma FourByteValue(b: Bytes)
    requires |b| == 4
    ensures FromBigEndian(b) == b[0] as int * 0x100_0000 + b[1] as int * 0x1_0000 + b[2] as int * 0x100 + b[3] as int
  {
    assert b[..3][..2] == b[..2] && b[..2][..1] == b[..1] && b[..1][..0] == [];
    assert FromBigEndian(b[..1]) == b[0] as int;
    assert FromBigEndian(b[..2]) == FromBigEndian(b[..1]) * 256 + b[1] as int;
    assert FromBigEndian(b[..3]) == FromBigEndian(b[..2]) * 256 + b[2] as int;
  }

  lemma FromBigEndianBound(b: Bytes)
    ensures FromBigEndian(b) < Pow256(|b|)
  {
    if b != [] {
      FromBigEndianBound(b[..|b| - 1]);
      ByteBound(b[|b| - 1]);
    }
  }

  lemma ByteBound(b: Byte)
    ensures b as int < 256
  {}

  lemma {:induction false} FromBigEndianInjective(a: Bytes, b: Bytes)
    requires |a| == |b| && FromBigEndian(a) == FromBigEndian(b)
    ensures a == b
  {
    if a != [] {
      var n := |a| - 1;
      ByteBound(a[n]);
      ByteBound(b[n]);
      SameInt(a[n], b[n]);
      FromBigEndianInjective(a[..n], b[..n]);
      assert a == a[..n] + [a[n]] && b == b[..n] + [b[n]];
    }
  }

  /** The first frame of a stream that is long enough to hold it. */
  lemma SplitFrame(s: Bytes) returns (f: Frame)
    requires s != [] && !Truncated(s)
    ensures f.tag == s[0] && f.payload == s[5..5 + FromBigEndian(s[1..5])]
    ensures Sendable(f) && s == EncodeFrame(f) + s[5 + FromBigEndian(s[1..5])..]
  {
    var n := FromBigEndian(s[1..5]);
    f := Frame(s[0], s[5..5 + n]);
    FromBigEndianBound(s[1..5]);
    BigEndianRoundTrip(n, 4);
    FromBigEndianInjective(s[1..5], BigEndian(n, 4));
    assert s == [s[0]] + s[1..5] + s[5..5 + n] + s[5 + n..];
  }

  lemma HeadFrame(f: Frame, rest: Bytes)
    requires Sendable(f)
    ensures var s := EncodeFrame(f) + rest;
      && |s| >= 5 && s[0] == f.tag && FromBigEndian(s[1..5]) == |f.payload| && !Truncated(s)
      && s[5..5 + |f.payload|] == f.payload && s[5 + |f.payload|..] == rest
  {
    var s := EncodeFrame(f) + rest;
    assert s[1..5] == BigEndian(|f.payload|, 4);
    BigEndianRoundTrip(|f.payload|, 4);
  }

  /** find_in_stream as a function of the remaining bytes. */
  function Search(s: Bytes, tag: Byte): Result<Bytes, MessageError>
    decreases |s|
  {
    if s == [] then Err(NotFound(0))
    else if |s| < FRAME_HEADER_LEN then Err(TruncatedHeader)
    else
      var len := FromBigEndian(s[1..5]);
      if |s| < FRAME_HEADER_LEN + len then Err(TruncatedPayload)
      else if s[0] == tag then Ok(s[5..5 + len])
      else Search(s[5 + len..], tag)
  }

  lemma {:induction false} SearchSkips(frames: seq<Frame>, rest: Bytes, tag: Byte)
    requires Passes(frames, tag)
    ensures Search(EncodeAll(frames) + rest, tag) == Search(rest, tag)
  {
    if frames == [] {
      assert EncodeAll(frames) + rest == rest;
    } else {
      var tail := EncodeAll(frames[1..]) + rest;
      assert EncodeAll(frames) + rest == EncodeFrame(frames[0]) + tail;
      HeadFrame(frames[0], tail);
      SearchSkips(frames[1..], rest, tag);
    }
  }

  /** How a stream falls apart for a search: skipped frames, and what the search stops at. */
  lemma {:induction false} Skipped(s: Bytes, tag: Byte) returns (frames: seq<Frame>, rest: Bytes)
    ensures Passes(frames, tag) && s == EncodeAll(frames) + rest
    ensures rest == [] || Truncated(rest) || rest[0] == tag
    decreases |s|
  {
    if s == [] || Truncated(s) || s[0] == tag {
      frames, rest := [], s;
      assert s == EncodeAll(frames) + rest;
    } else {
      var f := SplitFrame(s);
      var more;
      more, rest := Skipped(s[5 + FromBigEndian(s[1..5])..], tag);
      frames := [f] + more;
      assert frames[1..] == more;
      assert s == EncodeFrame(f) + (EncodeAll(more) + rest);
    }
  }

  lemma ExhaustsThenNotFound(s: Bytes, tag: Byte)
    requires Exhausts(s, tag)
    ensures Search(s, tag) == Err(NotFound(0))
  {
    var fs :| Passes(fs, tag) && s == EncodeAll(fs);
    SearchSkips(fs, [], tag);
    assert EncodeAll(fs) + [] == s;
  }

  lemma BreaksOffThenTruncated(s: Bytes, tag: Byte, in_header: bool)
    requires BreaksOff(s, tag, in_header)
    ensures Search(s, tag) == Err(if in_header then TruncatedHeader else TruncatedPayload)
  {
    var fs, r :| Passes(fs, tag) && Truncated(r) && (in_header <==> |r| < 5) && s == EncodeAll(fs) + r;
    SearchSkips(fs, r, tag);
  }

  lemma FindsThenOk(s: Bytes, tag: Byte, p: Bytes)
    requires Finds(s, tag, p)
    ensures Search(s, tag) == Ok(p)
  {
    var fs, r :| Passes(fs, tag) && |p| < Pow256(4) && s == EncodeAll(fs) + (EncodeFrame(Frame(tag, p)) + r);
    SearchSkips(fs, EncodeFrame(Frame(tag, p)) + r, tag);
    HeadFrame(Frame(tag, p), r);
  }

  /** One of the four cases applies to every stream. */
  lemma SomeOutcome(s: Bytes, tag: Byte)
    ensures Exhausts(s, tag) || BreaksOff(s, tag, true) || BreaksOff(s, tag, false) || exists p: Bytes :: Finds(s, tag, p)
  {
    var frames, rest := Skipped(s, tag);
    if rest == [] {
      assert s == EncodeAll(frames);
    } else if Truncated(rest) {
      assert BreaksOff(s, tag, |rest| < 5);
    } else {
      var f := SplitFrame(rest);
      assert Finds(s, tag, f.payload);
    }
  }

  /** Each outcome of a search means exactly what it should, on every stream. */
  lemma SearchMeaning(s: Bytes, tag: Byte)
    ensures Search(s, tag) == Err(NotFound(0)) <==> Exhausts(s, tag)
    ensures Search(s, tag) == Err(TruncatedHeader) <==> BreaksOff(s, tag, true)
    ensures Search(s, tag) == Err(TruncatedPayload) <==> BreaksOff(s, tag, false)
    ensures forall p: Bytes :: Search(s, tag) == Ok(p) <==> Finds(s, tag, p)
  {
    hide Exhausts, BreaksOff, Finds, Search;
    SomeOutcome(s, tag);
    if Exhausts(s, tag) {
      ExhaustsThenNotFound(s, tag);
    }
    if BreaksOff(s, tag, true) {
      BreaksOffThenTruncated(s, tag, true);
    }
    if BreaksOff(s, tag, false) {
      BreaksOffThenTruncated(s, tag, false);
    }
    forall p: Bytes | Finds(s, tag, p) ensures Search(s, tag) == Ok(p) {
      FindsThenOk(s, tag, p);
    }
  }

  /** The payload of the first frame carrying a tag. */
  function FirstWithTag(frames: seq<Frame>, tag: Byte): Result<Bytes, MessageError> {
    if frames == [] then Err(NotFound(0))
    else if frames[0].tag == tag then Ok(frames[0].payload)
    else FirstWithTag(frames[1..], tag)
  }

  /** Searching a concatenation of frames. */
  lemma {:induction false} SearchFrames(frames: seq<Frame>, tag: Byte)
    requires forall i :: 0 <= i < |frames| ==> Sendable(frames[i])
    ensures Search(EncodeAll(frames), tag) == FirstWithTag(frames, tag)
  {
    if frames != [] {
      HeadFrame(frames[0], EncodeAll(frames[1..]));
      SearchFrames(frames[1..], tag);
    }
  }

  /** find_in_stream */
  method FindInStream(stream: Bytes, tag: Byte) returns (r: Result<Bytes, MessageError>)
    ensures r == Search(stream, tag)
  {
    var offset := 0;
    while offset < |stream|
      invariant offset <= |stream|
      invariant Search(stream[offset..], tag) == Search(stream, tag)
    {
      ghost var s := stream[offset..];
      if offset + FRAME_HEADER_LEN > |stream| {
        return Err(TruncatedHeader);
      }
      var found := stream[offset];
      var len := FromBigEndian(stream[offset + 1..offset + 5]);
      assert s[0] == found && s[1..5] == stream[offset + 1..offset + 5];
      offset := offset + FRAME_HEADER_LEN;
      if offset + len > |stream| {
        return Err(TruncatedPayload);
      }
      if found == tag {
        assert stream[offset..offset + len] == s[5..5 + len];
        return Ok(stream[offset..offset + len]);
      }
      assert s[5 + len..] == stream[offset + len..];
      offset := offset + len;
    }
    return Err(NotFound(0));
  }

  /** What one party sends in a phase. */
  class PhaseOutput {
    var broadcasts: seq<Bytes>
    var p2p: map<nat, Bytes>

    constructor ()
      ensures broadcasts == [] && p2p == map[]
    {
      broadcasts, p2p := [], map[];
    }

    /** The bytes queued for a receiver. */
    function Stream(receiver: nat): Bytes
      reads this
    {
      if receiver in p2p then p2p[receiver] else []
    }

    method AddBroadcast(tag: Byte, payload: Bytes) returns (r: Result<(), MessageError>)
      modifies this
      ensures p2p == old(p2p)
      ensures r.Ok? <==> Sendable(Frame(tag, payload))
      ensures r.Err? ==> r.error == PayloadTooLong
      ensures broadcasts == if r.Ok? then old(broadcasts) + [EncodeFrame(Frame(tag, payload))] else old(broadcasts)
    {
      var frame := EncodeMessage(tag, payload);
      if frame.Err? {
        return Err(frame.error);
      }
      broadcasts := broadcasts + [frame.value];
      return Ok(());
    }

    method AddP2p(receiver: nat, tag: Byte, payload: Bytes) returns (r: Result<(), MessageError>)
      modifies this
      ensures broadcasts == old(broadcasts)
      ensures r.Ok? <==> Sendable(Frame(tag, payload))
      ensures r.Err? ==> r.error == PayloadTooLong
      ensures r.Ok? ==> p2p == old(p2p)[receiver := old(Stream(receiver)) + EncodeFrame(Frame(tag, payload))]
      ensures r.Err? ==> p2p == old(p2p)[receiver := old(Stream(receiver))]
    {
      var frame := EncodeMessage(tag, payload);
      if receiver !in p2p {
        p2p := p2p[receiver := []];
      }
      if frame.Err? {
        return Err(frame.error);
      }
      p2p := p2p[receiver := p2p[receiver] + frame.value];
      return Ok(());
    }
  }

  /** What one party received in a phase, by sender. */
  datatype PhaseInput = PhaseInput(broadcasts: map<nat, Bytes>, p2p: map<nat, Bytes>)

  function Lookup(streams: map<nat, Bytes>, sender: nat, tag: Byte): Result<Bytes, MessageError> {
    if sender !in streams then Err(NotFound(sender))
    else
      var r := Search(streams[sender], tag);
      if r.Err? && r.error.NotFound? then Err(NotFound(sender)) else r
  }

  /** The stream of a receiver grows frame by frame. */
  lemma {:induction false} EncodeAllAppend(frames: seq<Frame>, f: Frame)
    ensures EncodeAll(frames + [f]) == EncodeAll(frames) + EncodeFrame(f)
  {
    if frames == [] {
      assert (frames + [f])[1..] == [];
    } else {
      EncodeAllAppend(frames[1..], f);
      assert (frames + [f])[1..] == frames[1..] + [f];
    }
  }

  /** A frame sent to a party is what that party reads back, as long as it is the first with its tag. */
  lemma DeliveredFrame(frames: seq<Frame>, i: nat, input: PhaseInput, sender: nat)
    requires forall k :: 0 <= k < |frames| ==> Sendable(frames[k])
    requires i < |frames| && forall k :: 0 <= k < i ==> frames[k].tag != frames[i].tag
    requires sender in input.p2p && input.p2p[sender] == EncodeAll(frames)
    ensures Lookup(input.p2p, sender, frames[i].tag) == Ok(frames[i].payload)
  {
    SearchFrames(frames, frames[i].tag);
    FirstIs(frames, i);
  }

  lemma {:induction false} FirstIs(frames: seq<Frame>, i: nat)
    requires i < |frames| && forall k :: 0 <= k < i ==> frames[k].tag != frames[i].tag
    ensures FirstWithTag(frames, frames[i].tag) == Ok(frames[i].payload)
  {
    if i > 0 {
      FirstIs(frames[1..], i - 1);
    }
  }
}
