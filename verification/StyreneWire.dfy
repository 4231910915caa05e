/** The versioned binary envelope of src/styrened/models/styrene_wire.py. */
module StyreneWire {
  import opened Prelude

  const PREFIX: Bytes := [0x73, 0x74, 0x79, 0x72, 0x65, 0x6E, 0x65, 0x2E, 0x69, 0x6F, 0x3A] // "styrene.io:"
  const REQUEST_ID_LENGTH := 16
  const NO_CORRELATION: Bytes := [0, 0, 0, 0, 0, 0, 0, 0, 0, 0, 0, 0, 0, 0, 0, 0]
  const MIN_LENGTH_V1 := 13
  const MIN_LENGTH_V2 := 29
  const MAX_PAYLOAD_SIZE := 262144

  const STATUS_RESPONSE: Byte := 0x11
  const EXEC_RESULT: Byte := 0x60
  const REBOOT_RESULT: Byte := 0x61
  const CONFIG_RESULT: Byte := 0x62
  const INBOX_RESPONSE: Byte := 0x64
  const MESSAGES_RESPONSE: Byte := 0x65
  const SELF_UPDATE_RESULT: Byte := 0x66
  const ERROR: Byte := 0xFF

  /** The codes that StyreneMessageType enumerates. */
  predicate KnownType(code: int) {
    || 0x01 <= code <= 0x03
    || 0x10 <= code <= 0x13
    || 0x20 <= code <= 0x24
    || 0x30 <= code <= 0x35
    || 0x40 <= code <= 0x47
    || 0x60 <= code <= 0x67
    || 0x80 <= code <= 0x83
    || 0xA0 <= code <= 0xA3
    || 0xC0 <= code <= 0xC6
    || 0xD0 <= code <= 0xD5
    || code == 0xFF
  }

  datatype Envelope = Envelope(version: Byte, messageType: Byte, payload: Bytes, requestId: Option<Bytes>)

  datatype WireError =
    | InvalidPrefix
    | UnsupportedVersion
    | InvalidMessageType
    | BadVersion
    | PayloadTooLarge
    | BadRequestId
    | VersionOneWithId

  /** Construction with the checks of `__post_init__`. `generated` is the
      random id that a version 2 envelope without one receives. */
  function Make(version: int, messageType: Byte, payload: Bytes, requestId: Option<Bytes>, generated: Bytes)
    : Result<Envelope, WireError>
  {
    if !(0 <= version <= 255) then Err(BadVersion)
    else if |payload| > MAX_PAYLOAD_SIZE then Err(PayloadTooLarge)
    else if requestId.Some? && |requestId.value| != REQUEST_ID_LENGTH then Err(BadRequestId)
    else if version == 2 && requestId.None? then Ok(Envelope(version, messageType, payload, Some(generated)))
    else if version == 1 && requestId.Some? then Err(VersionOneWithId)
    else Ok(Envelope(version, messageType, payload, requestId))
  }

  /** What holds of every constructed envelope. */
  predicate Valid(e: Envelope) {
    && KnownType(e.messageType)
    && |e.payload| <= MAX_PAYLOAD_SIZE
    && (e.requestId.Some? ==> |e.requestId.value| == REQUEST_ID_LENGTH)
    && (e.version == 2 ==> e.requestId.Some?)
    && (e.version == 1 ==> e.requestId.None?)
  }

  /** The two versions `Decode` understands. */
  predicate Supported(e: Envelope) {
    e.version == 1 || e.version == 2
  }

  predicate ExpectsResponse(e: Envelope) {
    e.requestId.Some? && e.requestId.value != NO_CORRELATION
  }

  function Encode(e: Envelope): Bytes {
    var header := PREFIX + [e.version] + [e.messageType];
    if e.version == 2 then
      var id := if e.requestId.Some? && e.requestId.value != [] then e.requestId.value else NO_CORRELATION;
      header + id + e.payload
    else
      header + e.payload
  }

  function Decode(data: Bytes): Result<Envelope, WireError> {
    if |data| < MIN_LENGTH_V1 then Err(InvalidPrefix)
    else if !(PREFIX <= data) then Err(InvalidPrefix)
    else
      var version, code := data[11], data[12];
      if version != 1 && version != 2 then Err(UnsupportedVersion)
      else if !KnownType(code) then Err(InvalidMessageType)
      else if version == 2 then
        if |data| < MIN_LENGTH_V2 then Err(InvalidPrefix)
        else Make(version, code, data[29..], Some(data[13..29]), NO_CORRELATION)
      else
        Make(version, code, data[13..], None, NO_CORRELATION)
  }

  /** The message types one by one. */
  lemma KnownTypesAre(code: Byte)
    ensures KnownType(code) <==>
              code in {0x01, 0x02, 0x03, 0x10, 0x11, 0x12, 0x13, 0x20, 0x21, 0x22, 0x23, 0x24,
                       0x30, 0x31, 0x32, 0x33, 0x34, 0x35, 0x40, 0x41, 0x42, 0x43, 0x44, 0x45, 0x46, 0x47,
                       0x60, 0x61, 0x62, 0x63, 0x64, 0x65, 0x66, 0x67, 0x80, 0x81, 0x82, 0x83,
                       0xA0, 0xA1, 0xA2, 0xA3, 0xC0, 0xC1, 0xC2, 0xC3, 0xC4, 0xC5, 0xC6,
                       0xD0, 0xD1, 0xD2, 0xD3, 0xD4, 0xD5, 0xFF}
  {
  }

  /** The prefix in ASCII. */
  predicate StartsWithTag(data: Bytes) {
    |data| >= 11 && forall i :: 0 <= i < 11 ==> data[i] == "styrene.io:"[i] as int
  }

  lemma TagIsPrefix(data: Bytes)
    ensures StartsWithTag(data) <==> PREFIX <= data
  {
    assert forall i :: 0 <= i < 11 ==> PREFIX[i] == "styrene.io:"[i] as int;
  }

  /** What the bytes of an accepted message are: the tag, a version, a type, in
      version 2 an id of 16 bytes, and at most 262144 bytes of payload. */
  lemma DecodesIff(data: Bytes, e: Envelope)
    ensures Decode(data) == Ok(e) <==>
              && |data| >= 13 && StartsWithTag(data)
              && e.version == data[11] && e.messageType == data[12] && KnownType(data[12])
              && (|| (data[11] == 1 && e.requestId == None && e.payload == data[13..])
                  || (data[11] == 2 && |data| >= 29 && e.requestId == Some(data[13..29]) && e.payload == data[29..]))
              && |e.payload| <= 262144
  {
    TagIsPrefix(data);
    hide KnownType, StartsWithTag;
  }

  /** Why a message is refused. An oversized payload is refused only when
      everything else is in order. */
  lemma RefusedIff(data: Bytes)
    ensures var r := Decode(data);
            && (r == Err(UnsupportedVersion) <==> |data| >= 13 && StartsWithTag(data) && data[11] !in {1, 2})
            && (r == Err(InvalidMessageType) <==>
                  |data| >= 13 && StartsWithTag(data) && data[11] in {1, 2} && !KnownType(data[12]))
            && (r == Err(PayloadTooLarge) <==>
                  |data| >= 13 && StartsWithTag(data) && KnownType(data[12])
                  && ((data[11] == 1 && |data| > 13 + 262144) || (data[11] == 2 && |data| > 29 + 262144)))
            && (r.Err? ==> r.error in {InvalidPrefix, UnsupportedVersion, InvalidMessageType, PayloadTooLarge})
  {
    TagIsPrefix(data);
    hide KnownType, StartsWithTag;
  }

  /** Construction accepts an envelope's own fields unchanged exactly when
      the envelope is valid, and whatever it constructs is valid. */
  lemma ConstructedIffValid(e: Envelope, generated: Bytes)
    requires KnownType(e.messageType) && |generated| == REQUEST_ID_LENGTH
    ensures var r := Make(e.version, e.messageType, e.payload, e.requestId, generated);
            && (r == Ok(e) <==> Valid(e))
            && (r.Ok? ==> Valid(r.value))
  {
  }

  /** Decoding an encoded envelope gives the envelope back, correlation id
      included, exactly for the versions the decoder supports. */
  lemma DecodeEncode(e: Envelope)
    requires Valid(e)
    ensures Supported(e) ==> Decode(Encode(e)) == Ok(e)
    ensures !Supported(e) ==> Decode(Encode(e)) == Err(UnsupportedVersion)
  {
    var data := Encode(e);
    assert PREFIX <= data;
    assert data[11] == e.version && data[12] == e.messageType;
    if e.version == 2 {
      assert data[13..29] == e.requestId.value;
      assert data[29..] == e.payload;
    } else {
      assert data[13..] == e.payload;
    }
  }

  /** The wire form is canonical: what decodes is what encoding yields. */
  lemma EncodeDecode(data: Bytes)
    requires Decode(data).Ok?
    ensures var e := Decode(data).value;
            Valid(e) && Supported(e) && Encode(e) == data
  {
    var e := Decode(data).value;
    assert data == PREFIX + [data[11]] + [data[12]] + data[13..];
    if e.version == 2 {
      assert data[13..] == data[13..29] + data[29..];
      assert Encode(e) == PREFIX + [data[11]] + [data[12]] + data[13..29] + data[29..];
    }
  }

  /** `Encode` and `Decode` are inverse bijections between the valid
      envelopes of the supported versions and the accepted byte strings. */
  lemma CodecIsBijection(data: Bytes, e1: Envelope, e2: Envelope)
    requires Valid(e1) && Supported(e1) && Valid(e2) && Supported(e2)
    ensures Decode(data).Ok? <==> exists e :: Valid(e) && Supported(e) && Encode(e) == data
    ensures Encode(e1) == Encode(e2) <==> e1 == e2
    ensures ExpectsResponse(Decode(Encode(e1)).value) <==> ExpectsResponse(e1)
  {
    if Decode(data).Ok? {
      EncodeDecode(data);
    }
    forall e | Valid(e) && Supported(e) && Encode(e) == data
      ensures Decode(data).Ok?
    {
      DecodeEncode(e);
    }
    DecodeEncode(e1);
    DecodeEncode(e2);
  }
}
