/** Length-prefixed framing of src/styrened/ipc/protocol.py, and the reading
    of a byte stream frame by frame however it is chunked. */
module IpcProtocol {
  import opened Prelude

  const LENGTH_SIZE := 4
  const REQUEST_ID_SIZE := 16
  const HEADER_SIZE := 17
  const MAX_PAYLOAD_SIZE := 4194304

  const PONG: Byte := 0x80
  const RESULT: Byte := 0x81
  const ERROR: Byte := 0x82

  /** The codes that IPCMessageType enumerates. */
  predicate KnownType(code: int) {
    || code == 0x01
    || 0x10 <= code <= 0x1F
    || 0x20 <= code <= 0x2F
    || 0x30 <= code <= 0x32 || code == 0x3F
    || 0x40 <= code <= 0x4F
    || 0x50 <= code <= 0x53
    || 0x60 <= code <= 0x66
    || 0x70 <= code <= 0x73
    || 0x80 <= code <= 0x82
    || 0xC0 <= code <= 0xC6
  }

  predicate IsRequestType(code: Byte) { code < 0x80 }

  predicate IsResponseType(code: Byte) { code in {PONG, RESULT, ERROR} }

  predicate IsEventType(code: Byte) { code >= 0xC0 }

  /** Every message type is exactly one of request, response and event. */
  lemma TypesPartition(code: Byte)
    requires KnownType(code)
    ensures IsResponseType(code) <==> !IsRequestType(code) && !IsEventType(code)
    ensures !(IsRequestType(code) && IsEventType(code))
  {
  }

  /** The codes one by one: requests (ping, queries, commands, subscriptions),
      responses and events. */
  lemma KnownTypesAre(code: Byte)
    ensures KnownType(code) && IsRequestType(code) <==>
              code in {0x01,
                       0x10, 0x11, 0x12, 0x13, 0x14, 0x15, 0x16, 0x17, 0x18, 0x19, 0x1A, 0x1B, 0x1C, 0x1D, 0x1E, 0x1F,
                       0x20, 0x21, 0x22, 0x23, 0x24, 0x25, 0x26, 0x27, 0x28, 0x29, 0x2A, 0x2B, 0x2C, 0x2D, 0x2E, 0x2F,
                       0x30, 0x31, 0x32, 0x3F,
                       0x40, 0x41, 0x42, 0x43, 0x44, 0x45, 0x46, 0x47, 0x48, 0x49, 0x4A, 0x4B, 0x4C, 0x4D, 0x4E, 0x4F,
                       0x50, 0x51, 0x52, 0x53, 0x60, 0x61, 0x62, 0x63, 0x64, 0x65, 0x66, 0x70, 0x71, 0x72, 0x73}
    ensures KnownType(code) && IsResponseType(code) <==> code in {0x80, 0x81, 0x82}
    ensures KnownType(code) && IsEventType(code) <==> code in {0xC0, 0xC1, 0xC2, 0xC3, 0xC4, 0xC5, 0xC6}
  {
  }

  type Payload = map<string, Tree>

  /** msgpack as a pair of functions; `unpack` gives None where it raises. */
  datatype Codec = Codec(pack: Payload -> Bytes, unpack: Bytes -> Option<Tree>)

  /** What is asked of msgpack: unpacking undoes packing, and no value is
      encoded by nothing. */
  ghost predicate Faithful(c: Codec) {
    && (forall p :: c.unpack(c.pack(p)) == Some(Dict(p)))
    && c.unpack([]) == None
  }

  datatype Frame = Frame(msgType: Byte, requestId: Bytes, payload: Payload)

  datatype FrameError =
    | BadRequestId
    | PayloadTooLarge
    | TooShort
    | Incomplete
    | TooLarge
    | UnknownType
    | BadPayload
    | PayloadNotDict
    | IndexError

  function Pack32(n: nat): (b: Bytes)
    requires n < 0x1_0000_0000
    ensures |b| == 4
  {
    [n / 256 / 256 / 256, n / 256 / 256 % 256, n / 256 % 256, n % 256]
  }

  function Unpack32(b: Bytes): (n: nat)
    requires |b| == 4
    ensures n < 0x1_0000_0000
  {
    var b0: int, b1: int, b2: int := b[0], b[1], b[2];
    ((b0 * 256 + b1) * 256 + b2) * 256 + b[3]
  }

  lemma Unpack32Pack32(n: nat)
    requires n < 0x1_0000_0000
    ensures Unpack32(Pack32(n)) == n
  {
  }

  function EncodeFrame(c: Codec, msgType: Byte, requestId: Bytes, payload: Payload): Result<Bytes, FrameError> {
    var packed := c.pack(payload);
    if |requestId| != REQUEST_ID_SIZE then Err(BadRequestId)
    else if |packed| > MAX_PAYLOAD_SIZE then Err(PayloadTooLarge)
    else Ok(Pack32(HEADER_SIZE + |packed|) + [msgType] + requestId + packed)
  }

  /** The part after the length prefix. The slices are clipped, as Python's
      are: a short body has a short id and an empty payload. */
  function ParseBody(c: Codec, body: Bytes): Result<Frame, FrameError>
    requires body != []
  {
    if !KnownType(body[0]) then Err(UnknownType)
    else
      var rest := body[1..];
      var id := if |rest| < REQUEST_ID_SIZE then rest else rest[..REQUEST_ID_SIZE];
      match c.unpack(rest[|id|..])
      case None => Err(BadPayload)
      case Some(Dict(m)) => Ok(Frame(body[0], id, m))
      case Some(_) => Err(PayloadNotDict)
  }

  /** `decode_frame` on a byte string, which may run past the frame. */
  function DecodeFrame(c: Codec, data: Bytes): Result<Frame, FrameError> {
    if |data| < LENGTH_SIZE then Err(TooShort)
    else
      var n := Unpack32(data[..LENGTH_SIZE]);
      if |data| < LENGTH_SIZE + n then Err(Incomplete)
      else if |data| == LENGTH_SIZE then Err(IndexError)
      else if !KnownType(data[LENGTH_SIZE]) then Err(UnknownType)
      else if n == 0 then (if c.unpack([]).None? then Err(BadPayload) else Err(PayloadNotDict))
      else ParseBody(c, data[LENGTH_SIZE..LENGTH_SIZE + n])
  }

  // ------------------------------------------------------------ stream reading

  /** What one `read_frame` reports: a frame, or an error of this frame. */
  type Outcome = Result<Frame, FrameError>

  /** A reader: the bytes that have arrived and are not consumed, the length
      already read if it is inside a frame, and whether the loop has ended. */
  datatype Reader = Reader(buffer: Bytes, awaiting: Option<nat>, stopped: bool)

  const START: Reader := Reader([], None, false)

  /** One `readexactly` with what follows it, or None while it has to wait. */
  function ReadStep(c: Codec, r: Reader): Option<(Reader, seq<Outcome>)> {
    if r.stopped then None
    else match r.awaiting
      case None =>
        if |r.buffer| < LENGTH_SIZE then None
        else
          var n := Unpack32(r.buffer[..LENGTH_SIZE]);
          var rest := r.buffer[LENGTH_SIZE..];
          if n > MAX_PAYLOAD_SIZE + HEADER_SIZE then Some((Reader(rest, None, false), [Err(TooLarge)]))
          else Some((Reader(rest, Some(n), false), []))
      case Some(n) =>
        if |r.buffer| < n then None
        else if n == 0 then Some((Reader(r.buffer, None, true), [Err(IndexError)]))
        else Some((Reader(r.buffer[n..], None, false), [ParseBody(c, r.buffer[..n])]))
  }

  function Measure(r: Reader): nat {
    if r.stopped then 0 else 1 + 2 * |r.buffer| + if r.awaiting.Some? then 1 else 0
  }

  /** Everything that can be read from what has arrived. */
  function Drain(c: Codec, r: Reader): (Reader, seq<Outcome>)
    decreases Measure(r)
  {
    match ReadStep(c, r)
    case None => (r, [])
    case Some((next, out)) =>
      var (last, more) := Drain(c, next);
      (last, out + more)
  }

  function Arrive(r: Reader, chunk: Bytes): Reader {
    r.(buffer := r.buffer + chunk)
  }

  /** The receive loop's reading of a stream that arrives chunk by chunk. */
  class StreamReader {
    var reader: Reader
    const codec: Codec

    constructor (codec: Codec)
      ensures reader == START && this.codec == codec
    {
      reader := START;
      this.codec := codec;
    }

    method Feed(chunk: Bytes) returns (outcomes: seq<Outcome>)
      modifies this
      ensures (reader, outcomes) == Drain(codec, Arrive(old(reader), chunk))
    {
      reader := reader.(buffer := reader.buffer + chunk);
      outcomes := [];
      assert forall more: seq<Outcome> :: [] + more == more;
      var step := ReadStep(codec, reader);
      while step.Some?
        invariant step == ReadStep(codec, reader)
        invariant var (last, more) := Drain(codec, reader);
                  (last, outcomes + more) == Drain(codec, Arrive(old(reader), chunk))
        decreases Measure(reader)
      {
        assert forall more :: outcomes + (step.value.1 + more) == outcomes + step.value.1 + more;
        reader := step.value.0;
        outcomes := outcomes + step.value.1;
        step := ReadStep(codec, reader);
      }
      assert outcomes + [] == outcomes;
    }
  }

  function FeedAll(c: Codec, r: Reader, chunks: seq<Bytes>): (Reader, seq<Outcome>)
    decreases |chunks|
  {
    if chunks == [] then (r, [])
    else
      var (next, out) := Drain(c, Arrive(r, chunks[0]));
      var (last, more) := FeedAll(c, next, chunks[1..]);
      (last, out + more)
  }

  function Concat(parts: seq<Bytes>): Bytes {
    if parts == [] then [] else parts[0] + Concat(parts[1..])
  }

  /** More bytes do not change what was already read. */
  lemma {:induction false} DrainThenArrive(c: Codec, r: Reader, x: Bytes)
    ensures var (mid, out) := Drain(c, r);
            var (last, more) := Drain(c, Arrive(mid, x));
            Drain(c, Arrive(r, x)) == (last, out + more)
    decreases Measure(r)
  {
    hide *;
    if ReadStep(c, r).Some? {
      var (next, out) := ReadStep(c, r).value;
      StepThenArrive(c, r, x);
      StepLowersMeasure(c, r);
      DrainUnfolds(c, r);
      DrainUnfolds(c, Arrive(r, x));
      DrainThenArrive(c, next, x);
      var (mid, out1) := Drain(c, next);
      var (last, more) := Drain(c, Arrive(mid, x));
      assert out + (out1 + more) == out + out1 + more;
    } else {
      var (last, more) := Drain(c, Arrive(r, x));
      DrainUnfolds(c, r);
      assert [] + more == more;
    }
  }

  lemma DrainUnfolds(c: Codec, r: Reader)
    ensures var step := ReadStep(c, r);
            && (step.None? ==> Drain(c, r) == (r, []))
            && (step.Some? ==> Drain(c, r) == (Drain(c, step.value.0).0, step.value.1 + Drain(c, step.value.0).1))
  {
  }

  lemma StepLowersMeasure(c: Codec, r: Reader)
    requires ReadStep(c, r).Some?
    ensures Measure(ReadStep(c, r).value.0) < Measure(r)
  {
  }

  lemma StepThenArrive(c: Codec, r: Reader, x: Bytes)
    requires ReadStep(c, r).Some?
    ensures ReadStep(c, Arrive(r, x)) == Some((Arrive(ReadStep(c, r).value.0, x), ReadStep(c, r).value.1))
  {
    var k := if r.awaiting.None? then LENGTH_SIZE else r.awaiting.value;
    assert (r.buffer + x)[..k] == r.buffer[..k];
    assert (r.buffer + x)[k..] == r.buffer[k..] + x;
  }

  /** Nothing more can be read from a drained reader. */
  lemma {:induction false} DrainIsIdle(c: Codec, r: Reader)
    ensures ReadStep(c, Drain(c, r).0) == None
    decreases Measure(r)
  {
    if ReadStep(c, r).Some? {
      DrainIsIdle(c, ReadStep(c, r).value.0);
    }
  }

  /** What is read depends on the bytes alone, not on how they are chunked. */
  lemma {:induction false} ChunkingIsInvisible(c: Codec, r: Reader, chunks: seq<Bytes>)
    requires ReadStep(c, r) == None
    ensures FeedAll(c, r, chunks) == Drain(c, Arrive(r, Concat(chunks)))
    decreases |chunks|
  {
    if chunks == [] {
      assert Arrive(r, []) == r;
    } else {
      var next := Drain(c, Arrive(r, chunks[0])).0;
      DrainIsIdle(c, Arrive(r, chunks[0]));
      ChunkingIsInvisible(c, next, chunks[1..]);
      DrainThenArrive(c, Arrive(r, chunks[0]), Concat(chunks[1..]));
      assert Arrive(Arrive(r, chunks[0]), Concat(chunks[1..])) == Arrive(r, Concat(chunks));
    }
  }

  // ----------------------------------------------------------- whole frames

  /** A body of a length that `read_frame` accepts. */
  predicate Sendable(body: Bytes) {
    1 <= |body| <= MAX_PAYLOAD_SIZE + HEADER_SIZE
  }

  function Wrap(body: Bytes): Bytes
    requires Sendable(body)
  {
    Pack32(|body|) + body
  }

  function WrapAll(bodies: seq<Bytes>): Bytes
    requires forall b :: b in bodies ==> Sendable(b)
  {
    if bodies == [] then [] else assert bodies[0] in bodies; Wrap(bodies[0]) + WrapAll(bodies[1..])
  }

  function ParseAll(c: Codec, bodies: seq<Bytes>): seq<Outcome>
    requires forall b :: b in bodies ==> Sendable(b)
  {
    if bodies == [] then [] else assert Sendable(bodies[0]); [ParseBody(c, bodies[0])] + ParseAll(c, bodies[1..])
  }

  lemma ReadOne(c: Codec, body: Bytes, rest: Bytes)
    requires Sendable(body)
    ensures var (last, more) := Drain(c, Reader(rest, None, false));
            Drain(c, Reader(Wrap(body) + rest, None, false)) == (last, [ParseBody(c, body)] + more)
  {
    var buffer := Wrap(body) + rest;
    assert buffer[..4] == Pack32(|body|);
    Unpack32Pack32(|body|);
    assert buffer[4..] == body + rest;
    assert (body + rest)[..|body|] == body && (body + rest)[|body|..] == rest;
    var r1 := Reader(body + rest, Some(|body|), false);
    assert ReadStep(c, Reader(buffer, None, false)) == Some((r1, []));
    assert ReadStep(c, r1) == Some((Reader(rest, None, false), [ParseBody(c, body)]));
    var (last, more) := Drain(c, Reader(rest, None, false));
    assert [] + ([ParseBody(c, body)] + more) == [ParseBody(c, body)] + more;
  }

  /** An oversized frame is rejected for its length alone: its body stays in the
      stream and is read as further frames. */
  lemma ReadOversized(c: Codec, n: nat, rest: Bytes)
    requires MAX_PAYLOAD_SIZE + HEADER_SIZE < n < 0x1_0000_0000
    ensures var (last, more) := Drain(c, Reader(rest, None, false));
            Drain(c, Reader(Pack32(n) + rest, None, false)) == (last, [Err(TooLarge)] + more)
  {
    var buffer := Pack32(n) + rest;
    assert buffer[..4] == Pack32(n) && buffer[4..] == rest;
    Unpack32Pack32(n);
    assert ReadStep(c, Reader(buffer, None, false)) == Some((Reader(rest, None, false), [Err(TooLarge)]));
  }

  /** A frame without even a type ends the reading for good. */
  lemma ReadEmpty(c: Codec, rest: Bytes)
    ensures Drain(c, Reader(Pack32(0) + rest, None, false)) == (Reader(rest, None, true), [Err(IndexError)])
  {
    var buffer := Pack32(0) + rest;
    assert buffer[..4] == Pack32(0) && buffer[4..] == rest;
    Unpack32Pack32(0);
    var r1 := Reader(rest, Some(0), false);
    assert ReadStep(c, Reader(buffer, None, false)) == Some((r1, []));
    assert ReadStep(c, r1) == Some((Reader(rest, None, true), [Err(IndexError)]));
    DrainUnfolds(c, r1);
    DrainUnfolds(c, Reader(rest, None, true));
    var ended: Outcome := Err(IndexError);
    assert [] + ([ended] + []) == [ended];
  }

  /** A frame rejected for its type or its payload is consumed whole: in any
      chunking of any sequence of bodies, each body is reported on its own,
      in order, and nothing is left over. */
  lemma StreamOfBodies(c: Codec, bodies: seq<Bytes>, chunks: seq<Bytes>)
    requires forall b :: b in bodies ==> Sendable(b)
    requires Concat(chunks) == WrapAll(bodies)
    ensures FeedAll(c, START, chunks) == (START, ParseAll(c, bodies))
  {
    ChunkingIsInvisible(c, START, chunks);
    assert Arrive(START, Concat(chunks)) == Reader(WrapAll(bodies), None, false);
    DrainBodies(c, bodies);
  }

  lemma {:induction false} DrainBodies(c: Codec, bodies: seq<Bytes>)
    requires forall b :: b in bodies ==> Sendable(b)
    ensures Drain(c, Reader(WrapAll(bodies), None, false)) == (START, ParseAll(c, bodies))
    decreases |bodies|
  {
    if bodies != [] {
      DrainBodies(c, bodies[1..]);
      ReadOne(c, bodies[0], WrapAll(bodies[1..]));
    }
  }

  predicate Encodable(c: Codec, f: Frame) {
    KnownType(f.msgType) && EncodeFrame(c, f.msgType, f.requestId, f.payload).Ok?
  }

  function Encoded(c: Codec, f: Frame): Bytes
    requires Encodable(c, f)
  {
    EncodeFrame(c, f.msgType, f.requestId, f.payload).value
  }

  function EncodeAll(c: Codec, frames: seq<Frame>): Bytes
    requires forall f :: f in frames ==> Encodable(c, f)
  {
    if frames == [] then [] else Encoded(c, frames[0]) + EncodeAll(c, frames[1..])
  }

  function AllOk(frames: seq<Frame>): seq<Outcome> {
    seq(|frames|, i requires 0 <= i < |frames| => Ok(frames[i]))
  }

  lemma EncodedIsWrapped(c: Codec, f: Frame) returns (body: Bytes)
    requires Faithful(c) && Encodable(c, f)
    ensures Sendable(body) && Encoded(c, f) == Wrap(body) && ParseBody(c, body) == Ok(f)
  {
    var packed := c.pack(f.payload);
    body := [f.msgType] + f.requestId + packed;
    assert body[1..][..16] == f.requestId && body[1..][16..] == packed;
    assert Encoded(c, f) == Pack32(|body|) + body;
  }

  /** Reading the concatenation of any frames, however chunked, yields exactly
      those frames with nothing left over. */
  lemma StreamRoundTrip(c: Codec, frames: seq<Frame>, chunks: seq<Bytes>)
    requires Faithful(c) && forall f :: f in frames ==> Encodable(c, f)
    requires Concat(chunks) == EncodeAll(c, frames)
    ensures FeedAll(c, START, chunks) == (START, AllOk(frames))
  {
    var bodies := Bodies(c, frames);
    StreamOfBodies(c, bodies, chunks);
  }

  lemma {:induction false} Bodies(c: Codec, frames: seq<Frame>) returns (bodies: seq<Bytes>)
    requires Faithful(c) && forall f :: f in frames ==> Encodable(c, f)
    ensures forall b :: b in bodies ==> Sendable(b)
    ensures WrapAll(bodies) == EncodeAll(c, frames) && ParseAll(c, bodies) == AllOk(frames)
    decreases |frames|
  {
    if frames == [] {
      bodies := [];
    } else {
      var body := EncodedIsWrapped(c, frames[0]);
      var rest := Bodies(c, frames[1..]);
      bodies := [body] + rest;
      assert bodies[1..] == rest;
      assert AllOk(frames) == [Ok(frames[0])] + AllOk(frames[1..]);
    }
  }

  /** The whole-string decoder undoes the encoder, and reads nothing else as
      that frame's bytes: an accepted frame has a full request id. */
  lemma DecodeEncode(c: Codec, f: Frame, tail: Bytes)
    requires Faithful(c) && Encodable(c, f)
    ensures DecodeFrame(c, Encoded(c, f) + tail) == Ok(f)
  {
    var body := EncodedIsWrapped(c, f);
    var data := Wrap(body) + tail;
    assert data[..4] == Pack32(|body|);
    Unpack32Pack32(|body|);
    assert data[4] == body[0];
    assert data[4..4 + |body|] == body;
  }

  /** A body is accepted exactly when its type is known and what follows the
      type and a full request id of 16 bytes is a packed mapping; the frame is
      made of these three. */
  lemma AcceptedHasFullId(c: Codec, body: Bytes, f: Frame)
    requires Faithful(c) && body != []
    ensures ParseBody(c, body) == Ok(f) <==>
              && |body| > 17 && KnownType(body[0])
              && f.msgType == body[0] && f.requestId == body[1..17] && c.unpack(body[17..]) == Some(Dict(f.payload))
  {
    var rest := body[1..];
    assert rest[|rest|..] == [];
    if |body| >= 17 {
      assert rest[..16] == body[1..17] && rest[16..] == body[17..];
    }
  }

  /** What encoding refuses: ids that are not 16 bytes and packed payloads of
      more than 4 MiB. */
  lemma EncodesIff(c: Codec, msgType: Byte, requestId: Bytes, payload: Payload)
    ensures var r := EncodeFrame(c, msgType, requestId, payload);
            && (r == Err(BadRequestId) <==> |requestId| != 16)
            && (r == Err(PayloadTooLarge) <==> |requestId| == 16 && |c.pack(payload)| > 4194304)
            && (r.Ok? <==> |requestId| == 16 && |c.pack(payload)| <= 4194304)
  {
  }

  /** Why a byte string is refused, the reasons in the order they are looked
      for. A length of 0 is looked at only when bytes follow. */
  lemma RefusedIff(c: Codec, data: Bytes)
    requires Faithful(c)
    ensures var r := DecodeFrame(c, data);
            && (r == Err(TooShort) <==> |data| < 4)
            && (|data| >= 4 ==>
                  var n := Unpack32(data[..4]);
                  && (r == Err(Incomplete) <==> |data| < 4 + n)
                  && (r == Err(IndexError) <==> n == 0 && |data| == 4)
                  && (r == Err(UnknownType) <==> 4 + n <= |data| && |data| > 4 && !KnownType(data[4]))
                  && (n == 0 && |data| > 4 && KnownType(data[4]) ==> r == Err(BadPayload)))
  {
  }

  /** What `read_frame` reports on a stream that holds one frame. */
  function ReadFrame(c: Codec, data: Bytes): Option<Outcome> {
    var (_, out) := Drain(c, Reader(data, None, false));
    if out == [] then None else Some(out[0])
  }

  /** On the bytes of exactly one frame the two decoders report the same
      exactly when the frame is not oversized: `decode_frame` has no limit. */
  lemma DecodersAgree(c: Codec, data: Bytes)
    requires |data| >= LENGTH_SIZE && |data| == LENGTH_SIZE + Unpack32(data[..LENGTH_SIZE])
    ensures ReadFrame(c, data) == Some(DecodeFrame(c, data)) <==> |data| <= 4 + 1 + 16 + 4194304
  {
    var body := data[4..];
    var r := Reader(data, None, false);
    if |body| > MAX_PAYLOAD_SIZE + HEADER_SIZE {
      assert Drain(c, r).1[0] == Err(TooLarge);
      assert data[4..4 + |body|] == body;
    } else {
      assert ReadStep(c, r) == Some((Reader(body, Some(|body|), false), []));
      if body != [] {
        assert body[..|body|] == body && data[4..4 + |body|] == body;
        var r1 := Reader(body, Some(|body|), false);
        assert Drain(c, r1).1[0] == ParseBody(c, body);
      } else {
        assert Drain(c, Reader(body, Some(0), false)).1[0] == Err(IndexError);
      }
    }
  }
}
