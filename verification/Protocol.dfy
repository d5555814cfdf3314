/** The wire: checksummed frames and the kinds of message. */
module Protocol {
  import opened Types
  import opened Binary
  import opened Register
  import Checksum

  datatype MsgType =
    | HELLO | WELCOME | REGISTER_WORKER | REGISTER_ACK | SUBMIT | SUBMIT_ACK
    | DISPATCH | DISPATCH_ACK | WORKER_DISPATCH | WORKER_DISPATCH_ACK | START | COMPLETE
    | COMPLETE_ACK | CANCEL | CANCEL_ACK | PREEMPT | PREEMPT_ACK | ACK_PREEMPT
    | MARK_RESUMABLE | RESUME | RESUME_ACK | WORKER_LOST | QUERY | QUERY_RESPONSE
    | PING | PONG | SHUTDOWN

  function TypeByte(t: MsgType): byte {
    match t
    case HELLO => 0 case WELCOME => 1 case REGISTER_WORKER => 2 case REGISTER_ACK => 3
    case SUBMIT => 4 case SUBMIT_ACK => 5 case DISPATCH => 6 case DISPATCH_ACK => 7
    case WORKER_DISPATCH => 8 case WORKER_DISPATCH_ACK => 9 case START => 10 case COMPLETE => 11
    case COMPLETE_ACK => 12 case CANCEL => 13 case CANCEL_ACK => 14 case PREEMPT => 15
    case PREEMPT_ACK => 16 case ACK_PREEMPT => 17 case MARK_RESUMABLE => 18 case RESUME => 19
    case RESUME_ACK => 20 case WORKER_LOST => 21 case QUERY => 22 case QUERY_RESPONSE => 23
    case PING => 24 case PONG => 25 case SHUTDOWN => 26
  }

  function TypeOf(b: byte): Option<MsgType> {
    match b
    case 0 => Some(HELLO) case 1 => Some(WELCOME) case 2 => Some(REGISTER_WORKER)
    case 3 => Some(REGISTER_ACK) case 4 => Some(SUBMIT) case 5 => Some(SUBMIT_ACK)
    case 6 => Some(DISPATCH) case 7 => Some(DISPATCH_ACK) case 8 => Some(WORKER_DISPATCH)
    case 9 => Some(WORKER_DISPATCH_ACK) case 10 => Some(START) case 11 => Some(COMPLETE)
    case 12 => Some(COMPLETE_ACK) case 13 => Some(CANCEL) case 14 => Some(CANCEL_ACK)
    case 15 => Some(PREEMPT) case 16 => Some(PREEMPT_ACK) case 17 => Some(ACK_PREEMPT)
    case 18 => Some(MARK_RESUMABLE) case 19 => Some(RESUME) case 20 => Some(RESUME_ACK)
    case 21 => Some(WORKER_LOST) case 22 => Some(QUERY) case 23 => Some(QUERY_RESPONSE)
    case 24 => Some(PING) case 25 => Some(PONG) case 26 => Some(SHUTDOWN)
    case _ => None
  }

  lemma TypeRoundTrip(t: MsgType)
    ensures TypeOf(TypeByte(t)) == Some(t)
  {}

  // ------------------------------------------------------------------------------------------
  // Frames.
  // ------------------------------------------------------------------------------------------

  const FRAME_MAGIC: nat := 0x4446_5845
  const FRAME_VERSION: byte := 1
  const MAX_PAYLOAD: nat := 0x400_0000

  datatype Frame = Frame(kind: MsgType, payload: seq<byte>)
  datatype Header = Header(kind: MsgType, length: nat)

  function PutHeader(h: Header, k: seq<byte>): seq<byte> {
    Pow256Small();
    PutNum(4, FRAME_MAGIC, PutByte(FRAME_VERSION, PutByte(TypeByte(h.kind), PutNum(4, h.length % U32, k))))
  }

  function GetHeader(b: seq<byte>): (p: Parse<Header>)
    ensures p.Ok? ==> |p.rest| < |b|
  {
    var (magic, b) :- GetNum(4, b);
    if magic != FRAME_MAGIC then Fail else
    var (version, b) :- GetByte(b);
    if version != FRAME_VERSION then Fail else
    var (kind, b) :- GetByte(b);
    if TypeOf(kind).None? then Fail else
    var (length, b) :- GetNum(4, b);
    if length > MAX_PAYLOAD then Fail else Ok(Header(TypeOf(kind).value, length), b)
  }

  function PutFrame(f: Frame, k: seq<byte>): seq<byte> {
    PutHeader(Header(f.kind, |f.payload|), PutU64(Checksum.Compute(f.payload), PutBytes(f.payload, k)))
  }

  function EncodeFrame(f: Frame): seq<byte> {
    PutFrame(f, [])
  }

  /** Checksum and payload of the announced length. */
  function GetChecked(n: nat, b: seq<byte>): (p: Parse<seq<byte>>)
    ensures p.Ok? ==> |p.rest| <= |b|
  {
    var (crc, b) :- GetU64(b);
    var (payload, b) :- GetBytes(n, b);
    if Checksum.Compute(payload) != crc then Fail else Ok(payload, b)
  }

  /** One frame off a buffer that may hold more: what is left over is the rest. */
  function DecodeFrame(b: seq<byte>): (p: Parse<Frame>)
    ensures p.Ok? ==> |p.rest| < |b|
  {
    var (h, b) :- GetHeader(b);
    var (payload, b) :- GetChecked(h.length, b);
    Ok(Frame(h.kind, payload), b)
  }

  lemma HeaderRoundTrip(h: Header, k: seq<byte>)
    requires h.length < U32
    ensures GetHeader(PutHeader(h, k)) == if h.length <= MAX_PAYLOAD then Ok(h, k) else Fail
  {
    Pow256Small();
    TypeRoundTrip(h.kind);
  }

  lemma CheckedRoundTrip(payload: seq<byte>, k: seq<byte>)
    ensures GetChecked(|payload|, PutU64(Checksum.Compute(payload), PutBytes(payload, k))) == Ok(payload, k)
  {}

  lemma FrameRoundTrip(f: Frame, k: seq<byte>)
    requires |f.payload| <= MAX_PAYLOAD
    ensures DecodeFrame(PutFrame(f, k)) == Ok(f, k)
  {
    CheckedRoundTrip(f.payload, k);
    HeaderRoundTrip(Header(f.kind, |f.payload|), PutU64(Checksum.Compute(f.payload), PutBytes(f.payload, k)));
  }

  lemma FourAppend(a: seq<byte>, b: seq<byte>, c: seq<byte>, d: seq<byte>, k: seq<byte>)
    ensures a + (b + (c + (d + k))) == a + (b + (c + (d + []))) + k
  {}

  lemma HeaderAppends(h: Header, k: seq<byte>)
    ensures PutHeader(h, k) == PutHeader(h, []) + k
  {
    Pow256Small();
    FourAppend(LE(FRAME_MAGIC, 4), [FRAME_VERSION], [TypeByte(h.kind)], LE(h.length % U32, 4), k);
  }

  lemma BodyAppends(crc: U64, payload: seq<byte>, k: seq<byte>)
    ensures PutU64(crc, PutBytes(payload, k)) == PutU64(crc, PutBytes(payload, [])) + k
  {
    var c := LE(crc, 8);
    assert c + (payload + k) == c + (payload + []) + k;
  }

  lemma PutFrameAppends(f: Frame, k: seq<byte>)
    ensures PutFrame(f, k) == EncodeFrame(f) + k
  {
    var h := Header(f.kind, |f.payload|);
    var c := Checksum.Compute(f.payload);
    BodyAppends(c, f.payload, k);
    HeaderAppends(h, PutU64(c, PutBytes(f.payload, k)));
    HeaderAppends(h, PutU64(c, PutBytes(f.payload, [])));
  }

  /** A buffer read off frame by frame, as a connection carries them. */
  function DecodeStream(b: seq<byte>): Option<seq<Frame>>
    decreases |b|
  {
    if b == [] then Some([])
    else
      var p := DecodeFrame(b);
      if p.Fail? then None
      else
        var fs := DecodeStream(p.rest);
        if fs.None? then None else Some([p.value] + fs.value)
  }

  lemma StreamStep(b: seq<byte>, f: Frame, rest: seq<byte>, fs: seq<Frame>)
    requires DecodeFrame(b) == Ok(f, rest) && DecodeStream(rest) == Some(fs)
    ensures DecodeStream(b) == Some([f] + fs)
  {
    assert |rest| < |b|;
  }

  lemma StreamCons(f: Frame, tail: seq<byte>, fs: seq<Frame>)
    requires |f.payload| <= MAX_PAYLOAD && DecodeStream(tail) == Some(fs)
    ensures DecodeStream(EncodeFrame(f) + tail) == Some([f] + fs)
  {
    PutFrameAppends(f, tail);
    FrameRoundTrip(f, tail);
    StreamStep(PutFrame(f, tail), f, tail, fs);
  }

  /** Any way of printing frames one after the other, read off frame by frame. */
  function Joined(put: Frame -> seq<byte>, fs: seq<Frame>): seq<byte> {
    if fs == [] then [] else put(fs[0]) + Joined(put, fs[1..])
  }

  lemma {:induction false} JoinedReads(put: Frame -> seq<byte>, get: seq<byte> -> Option<seq<Frame>>, good: Frame -> bool, fs: seq<Frame>)
    requires get([]) == Some([])
    requires forall f: Frame, tail: seq<byte>, gs: seq<Frame> {:trigger get(put(f) + tail), [f] + gs} ::
               good(f) && get(tail) == Some(gs) ==> get(put(f) + tail) == Some([f] + gs)
    requires forall i :: 0 <= i < |fs| ==> good(fs[i])
    ensures get(Joined(put, fs)) == Some(fs)
  {
    if fs != [] {
      JoinedReads(put, get, good, fs[1..]);
      assert fs == [fs[0]] + fs[1..];
    }
  }

  /** Frames one after the other. */
  function EncodeStream(fs: seq<Frame>): seq<byte> {
    Joined(EncodeFrame, fs)
  }

  /** A concatenation of encoded frames decodes to exactly those messages, in order, consuming every byte. */
  lemma StreamRoundTrip(fs: seq<Frame>)
    requires forall i :: 0 <= i < |fs| ==> |fs[i].payload| <= MAX_PAYLOAD
    ensures DecodeStream(EncodeStream(fs)) == Some(fs)
  {
    forall f: Frame, tail: seq<byte>, gs: seq<Frame> | |f.payload| <= MAX_PAYLOAD && DecodeStream(tail) == Some(gs)
      ensures DecodeStream(EncodeFrame(f) + tail) == Some([f] + gs)
    {
      StreamCons(f, tail, gs);
    }
    JoinedReads(EncodeFrame, DecodeStream, (f: Frame) => |f.payload| <= MAX_PAYLOAD, fs);
  }

  const HEADER: nat := 10
  const PAYLOAD: nat := 18

  /** The header is the first ten bytes. */
  lemma HeaderIsPrefix(a: seq<byte>, b: seq<byte>)
    requires GetHeader(a).Ok? && |b| == |a| && a[..HEADER] == b[..HEADER]
    ensures GetHeader(a).rest == a[HEADER..]
    ensures GetHeader(b) == Ok(GetHeader(a).value, b[HEADER..])
  {
    assert a[..4] == a[..HEADER][..4] && b[..4] == b[..HEADER][..4];
    assert a[4] == a[..HEADER][4] && b[4] == b[..HEADER][4] && a[5] == a[..HEADER][5] && b[5] == b[..HEADER][5];
    assert a[4..][1..][1..] == a[6..] && b[4..][1..][1..] == b[6..];
    assert a[6..][..4] == a[..HEADER][6..10] && b[6..][..4] == b[..HEADER][6..10];
    assert a[6..][4..] == a[HEADER..] && b[6..][4..] == b[HEADER..];
  }

  lemma ChecksumChanged(n: nat, a: seq<byte>, b: seq<byte>)
    requires GetChecked(n, a).Ok? && |b| == |a| && a[..8] != b[..8] && a[8..] == b[8..]
    ensures GetChecked(n, b).Fail?
  {
    LEOfFromLE(a[..8]);
    LEOfFromLE(b[..8]);
  }

  lemma PayloadChanged(n: nat, a: seq<byte>, b: seq<byte>, lo: nat)
    requires GetChecked(n, a).Ok? && |b| == |a| && a[..8] == b[..8]
    requires a[8..][..n] != b[8..][..n] && DifferWithin8(a[8..][..n], b[8..][..n], lo)
    ensures GetChecked(n, b).Fail?
  {
    Checksum.BurstDetected(a[8..][..n], b[8..][..n], lo);
  }

  lemma FrameSlices(a: seq<byte>, n: nat)
    requires PAYLOAD + n <= |a|
    ensures a[..HEADER] == a[..PAYLOAD][..HEADER]
    ensures a[HEADER..][..8] == a[..PAYLOAD][HEADER..]
    ensures a[HEADER..][8..][..n] == a[PAYLOAD..PAYLOAD + n]
  {}

  lemma PayloadSlices(a: seq<byte>, b: seq<byte>, n: nat)
    requires |b| == |a| && PAYLOAD + n <= |a| && a[..PAYLOAD] == b[..PAYLOAD]
    ensures a[..HEADER] == b[..HEADER] && a[HEADER..][..8] == b[HEADER..][..8]
    ensures a[HEADER..][8..][..n] == a[PAYLOAD..PAYLOAD + n] && b[HEADER..][8..][..n] == b[PAYLOAD..PAYLOAD + n]
  {
    FrameSlices(a, n);
    FrameSlices(b, n);
  }

  lemma DecodedHeader(a: seq<byte>)
    requires DecodeFrame(a).Ok?
    ensures GetHeader(a).Ok? && GetHeader(a).value.length == |DecodeFrame(a).value.payload|
    ensures GetChecked(GetHeader(a).value.length, GetHeader(a).rest).Ok?
  {}

  lemma BadBodyRejected(b: seq<byte>, h: Header, rest: seq<byte>)
    requires GetHeader(b) == Ok(h, rest) && GetChecked(h.length, rest).Fail?
    ensures DecodeFrame(b).Fail?
  {}

  /** Any change of the payload within eight consecutive bytes is rejected. */
  lemma PayloadBurstRejected(a: seq<byte>, b: seq<byte>, lo: nat)
    requires DecodeFrame(a).Ok? && |b| == |a|
    requires var n := |DecodeFrame(a).value.payload|;
             && |a| >= PAYLOAD + n
             && a[..PAYLOAD] == b[..PAYLOAD]
             && a[PAYLOAD..PAYLOAD + n] != b[PAYLOAD..PAYLOAD + n]
             && DifferWithin8(a[PAYLOAD..PAYLOAD + n], b[PAYLOAD..PAYLOAD + n], lo)
    ensures DecodeFrame(b).Fail?
  {
    var n := |DecodeFrame(a).value.payload|;
    DecodedHeader(a);
    PayloadSlices(a, b, n);
    HeaderIsPrefix(a, b);
    PayloadChanged(n, a[HEADER..], b[HEADER..], lo);
    BadBodyRejected(b, GetHeader(a).value, b[HEADER..]);
  }

  /** Any change of the checksum field alone is rejected. */
  lemma ChecksumFieldChangeRejected(a: seq<byte>, b: seq<byte>)
    requires DecodeFrame(a).Ok? && |b| == |a| >= PAYLOAD
    requires a[..HEADER] == b[..HEADER] && a[HEADER..PAYLOAD] != b[HEADER..PAYLOAD] && a[PAYLOAD..] == b[PAYLOAD..]
    ensures DecodeFrame(b).Fail?
  {
    HeaderIsPrefix(a, b);
    var c, d := a[HEADER..], b[HEADER..];
    assert c[..8] == a[HEADER..PAYLOAD] && d[..8] == b[HEADER..PAYLOAD];
    assert c[8..] == a[PAYLOAD..] && d[8..] == b[PAYLOAD..];
    ChecksumChanged(GetHeader(a).value.length, c, d);
  }

  // ------------------------------------------------------------------------------------------
  // Exactly which bytes are a frame.
  // ------------------------------------------------------------------------------------------

  lemma TypeExactly(v: byte, t: MsgType)
    ensures TypeOf(v) == Some(t) <==> v == TypeByte(t)
  {}

  lemma ByteFirst(b: seq<byte>)
    requires GetByte(b).Ok?
    ensures b == PutByte(GetByte(b).value, GetByte(b).rest)
  {}

  /** What the fields of an accepted header are. */
  lemma HeaderParts(b: seq<byte>)
    requires GetHeader(b).Ok?
    ensures var h := GetHeader(b);
            var b1 := GetNum(4, b);
            && b1 == Ok(FRAME_MAGIC, b1.rest)
            && var b2 := GetByte(b1.rest);
            && b2 == Ok(FRAME_VERSION, b2.rest)
            && var b3 := GetByte(b2.rest);
            && b3.Ok? && TypeOf(b3.value) == Some(h.value.kind)
            && GetNum(4, b3.rest) == Ok(h.value.length, h.rest) && h.value.length <= MAX_PAYLOAD
  {}

  lemma HeaderAccepts(b: seq<byte>)
    requires GetHeader(b).Ok?
    ensures GetHeader(b).value.length <= MAX_PAYLOAD && b == PutHeader(GetHeader(b).value, GetHeader(b).rest)
  {
    Pow256Small();
    HeaderParts(b);
    var h := GetHeader(b);
    var b1 := GetNum(4, b).rest;
    var b2 := GetByte(b1).rest;
    var b3 := GetByte(b2).rest;
    NumAccepts(4, b);
    ByteFirst(b1);
    ByteFirst(b2);
    NumAccepts(4, b3);
    TypeExactly(GetByte(b2).value, h.value.kind);
    HeaderJoins(h.value, h.rest, b1, b2, b3, b);
  }

  lemma HeaderJoins(h: Header, k: seq<byte>, b1: seq<byte>, b2: seq<byte>, b3: seq<byte>, b: seq<byte>)
    requires h.length < U32 && h.length < Pow256(4) && FRAME_MAGIC < Pow256(4)
    requires b == PutNum(4, FRAME_MAGIC, b1) && b1 == PutByte(FRAME_VERSION, b2) && b2 == PutByte(TypeByte(h.kind), b3)
    requires b3 == PutNum(4, h.length, k)
    ensures b == PutHeader(h, k)
  {
    assert h.length % U32 == h.length;
  }

  lemma CheckedAccepts(n: nat, b: seq<byte>)
    requires GetChecked(n, b).Ok?
    ensures var payload := GetChecked(n, b).value;
            |payload| == n && b == PutU64(Checksum.Compute(payload), PutBytes(payload, GetChecked(n, b).rest))
  {
    U64Accepts(b);
    var b1 := GetU64(b).rest;
    assert b1 == b1[..n] + b1[n..];
  }

  /** Bytes begin with a frame if and only if they are the printed form of that frame, of at most 64 MiB, and what follows it. */
  lemma FrameExactly(b: seq<byte>, f: Frame, rest: seq<byte>)
    ensures DecodeFrame(b) == Ok(f, rest) <==> |f.payload| <= MAX_PAYLOAD && b == PutFrame(f, rest)
  {
    if DecodeFrame(b) == Ok(f, rest) {
      HeaderAccepts(b);
      CheckedAccepts(GetHeader(b).value.length, GetHeader(b).rest);
    } else if |f.payload| <= MAX_PAYLOAD && b == PutFrame(f, rest) {
      FrameRoundTrip(f, rest);
    }
  }
}
