/**
 * Request decoding of `server/lan.go`: the five payload structs, each filled in
 * place by its `UnmarshalBinary`, and the envelope that decodes the header,
 * dispatches on its type and decodes the payload after it.
 */
module LanRequests {
  import opened Wrappers
  import opened Binary
  import opened Controlifx
  import opened LanDispatch

  /** The contents of a decoded request payload. */
  datatype RequestValue =
    | SetPowerValue(level: PowerLevel)
    | SetLabelValue(text: Label)
    | EchoRequestValue(payload: seq<byte>)
    | LightSetColorValue(color: Color, duration: u32)
    | LightSetPowerValue(level: PowerLevel, duration: u32)

  function KindOf(v: RequestValue): RequestKind {
    match v
    case SetPowerValue(_) => SetPower
    case SetLabelValue(_) => SetLabel
    case EchoRequestValue(_) => EchoRequest
    case LightSetColorValue(_, _) => LightSetColor
    case LightSetPowerValue(_, _) => LightSetPower
  }

  /** The little-endian u16 at d[off..off + 2]. */
  function Uint16At(d: seq<byte>, off: nat): (r: u16)
    requires off + 2 <= |d|
    ensures r as nat == Uint(d[off..off + 2])
  {
    FieldRanges();
    Uint(d[off..off + 2]) as u16
  }

  /** The little-endian u32 at d[off..off + 4]. */
  function Uint32At(d: seq<byte>, off: nat): (r: u32)
    requires off + 4 <= |d|
    ensures r as nat == Uint(d[off..off + 4])
  {
    FieldRanges();
    Uint(d[off..off + 4]) as u32
  }

  /**
   * The bytes a decoder of kind k slices lie inside d: its fixed length, except that
   * a LightSetColor payload whose colour fails to decode is read no further than byte 9.
   */
  predicate Readable(c: Codecs, k: RequestKind, d: seq<byte>) {
    if k == LightSetColor then |d| >= 9 && (c.decodeColor(d[1..9]).Ok? ==> |d| >= 13)
    else |d| >= RequestSize(k)
  }

  /** SetPower: the level is the little-endian u16 of bytes 0..2. */
  function DecodeSetPower(d: seq<byte>): RequestValue
    requires |d| >= 2
  {
    SetPowerValue(Uint16At(d, 0))
  }

  /** SetLabel: the first 32 bytes without their trailing zeros. */
  function DecodeSetLabel(d: seq<byte>): RequestValue
    requires |d| >= 32
  {
    SetLabelValue(TrimRightZeros(d[..32]))
  }

  /** EchoRequest: the first 64 bytes, verbatim. */
  function DecodeEchoRequest(d: seq<byte>): RequestValue
    requires |d| >= 64
  {
    EchoRequestValue(d[..64])
  }

  /**
   * LightSetColor, starting from the zero value: byte 0 is skipped, the colour comes
   * from bytes 1..9 and the duration from bytes 9..13; a colour error is returned
   * and leaves the zero value.
   */
  function DecodeLightSetColor(c: Codecs, d: seq<byte>): (RequestValue, Option<Error>)
    requires Readable(c, LightSetColor, d)
  {
    match c.decodeColor(d[1..9])
    case Err(e) => (LightSetColorValue(ZeroColor, 0), Some(e))
    case Ok(color) => (LightSetColorValue(color, Uint32At(d, 9)), None)
  }

  /** LightSetPower: the level is the u16 of bytes 0..2 and the duration the u32 of bytes 2..6. */
  function DecodeLightSetPower(d: seq<byte>): RequestValue
    requires |d| >= 6
  {
    LightSetPowerValue(Uint16At(d, 0), Uint32At(d, 2))
  }

  /**
   * What a zero-valued payload of kind k holds after decoding d, and the error
   * returned: the layout table of the request payloads.
   */
  function DecodeRequest(c: Codecs, k: RequestKind, d: seq<byte>): (r: (RequestValue, Option<Error>))
    requires Readable(c, k, d)
    ensures KindOf(r.0) == k
  {
    match k
    case SetPower => (DecodeSetPower(d), None)
    case SetLabel => (DecodeSetLabel(d), None)
    case EchoRequest => (DecodeEchoRequest(d), None)
    case LightSetColor => DecodeLightSetColor(c, d)
    case LightSetPower => (DecodeLightSetPower(d), None)
  }

  /** Decoding reads only the fixed-length front of the payload: trailing bytes are ignored. */
  lemma DecodeIgnoresTrailingBytes(c: Codecs, k: RequestKind, d: seq<byte>, extra: seq<byte>)
    requires |d| == RequestSize(k)
    ensures DecodeRequest(c, k, d + extra) == DecodeRequest(c, k, d)
  {
    var e := d + extra;
    match k
    case SetPower => assert e[0..2] == d[0..2];
    case SetLabel => assert e[..32] == d[..32];
    case EchoRequest => assert e[..64] == d[..64];
    case LightSetColor => assert e[1..9] == d[1..9] && e[9..13] == d[9..13];
    case LightSetPower => assert e[0..2] == d[0..2] && e[2..6] == d[2..6];
  }

  /** The first byte of a LightSetColor payload is reserved: its value never matters. */
  lemma LightSetColorIgnoresReservedByte(c: Codecs, d: seq<byte>, b: byte)
    requires |d| >= RequestSize(LightSetColor)
    ensures DecodeRequest(c, LightSetColor, [b] + d[1..]) == DecodeRequest(c, LightSetColor, d)
  {
    var e := [b] + d[1..];
    assert e[1..9] == d[1..9] && e[9..13] == d[9..13];
  }

  /** Only LightSetColor can fail, and only by passing on the colour decoder's error. */
  lemma OnlyColorDecodingFails(c: Codecs, k: RequestKind, d: seq<byte>)
    requires Readable(c, k, d)
    ensures DecodeRequest(c, k, d).1.Some? <==> k == LightSetColor && c.decodeColor(d[1..9]).Err?
    ensures DecodeRequest(c, k, d).1.Some? ==> DecodeRequest(c, k, d).1.value == c.decodeColor(d[1..9]).error
  {
  }

  /** A power level written little-endian in front of a SetPower payload decodes to itself. */
  lemma SetPowerRoundTrip(c: Codecs, level: PowerLevel, rest: seq<byte>)
    ensures var d := LeBytes(2, level as nat) + rest;
      DecodeRequest(c, SetPower, d).0 == SetPowerValue(level)
  {
    FieldRanges();
    var d := LeBytes(2, level as nat) + rest;
    assert d[0..2] == LeBytes(2, level as nat);
    UintOfLeBytes(2, level as nat);
  }

  /** A label padded with zero bytes to 32 bytes decodes to itself when it does not end in zero. */
  lemma SetLabelRoundTrip(c: Codecs, text: Label, rest: seq<byte>)
    requires |text| <= 32 && (text == [] || text[|text| - 1] != 0)
    ensures var d := text + Zeros(32 - |text|) + rest;
      DecodeRequest(c, SetLabel, d).0 == SetLabelValue(text)
  {
    var d := text + Zeros(32 - |text|) + rest;
    assert d[..32] == text + Zeros(32 - |text|);
    TrimRightZerosUnique(d[..32], text);
  }

  /** `setPowerLanMessage`. */
  class SetPowerLanMessage {
    var level: PowerLevel

    constructor ()
      ensures level == 0
    {
      level := 0;
    }

    /** Level is the little-endian u16 of bytes 0..2. */
    method UnmarshalBinary(data: seq<byte>) returns (err: Option<Error>)
      requires |data| >= 2
      modifies this
      ensures level == Uint16At(data, 0) && err == None
      ensures SetPowerValue(level) == DecodeSetPower(data)
    {
      level := Uint16At(data, 0);
      err := None;
    }
  }

  /** `setLabelLanMessage`. */
  class SetLabelLanMessage {
    var text: Label

    constructor ()
      ensures text == []
    {
      text := [];
    }

    /** Label is the first 32 bytes with their trailing zero bytes removed. */
    method UnmarshalBinary(data: seq<byte>) returns (err: Option<Error>)
      requires |data| >= 32
      modifies this
      ensures text == TrimRightZeros(data[..32]) && err == None
      ensures |text| <= 32 && text == data[..|text|]
      ensures text == [] || text[|text| - 1] != 0
      ensures SetLabelValue(text) == DecodeSetLabel(data)
    {
      text := TrimRightZeros(data[..32]);
      err := None;
    }
  }

  /** `echoRequestLanMessage`, whose payload is a fixed 64-byte array. */
  class EchoRequestLanMessage {
    const payload: array<byte>

    /** The payload is Go's fixed-size `[64]byte`. */
    ghost predicate Valid() {
      payload.Length == 64
    }

    constructor ()
      ensures Valid() && payload.Length == 64
      ensures fresh(payload) && payload[..] == Zeros(64)
    {
      payload := new byte[64](_ => 0);
    }

    /** The payload array receives a copy of bytes 0..64. */
    method UnmarshalBinary(data: seq<byte>) returns (err: Option<Error>)
      requires Valid() && |data| >= 64
      modifies payload
      ensures Valid() && payload[..] == data[..64] && err == None
      ensures EchoRequestValue(payload[..]) == DecodeEchoRequest(data)
    {
      var n := CopyInto(payload, 0, 64, data[..64]);
      err := None;
    }
  }

  /** `lightSetColorLanMessage`. */
  class LightSetColorLanMessage {
    var color: Color
    var duration: u32

    constructor ()
      ensures color == ZeroColor && duration == 0
    {
      color := ZeroColor;
      duration := 0;
    }

    /**
     * Byte 0 is skipped, the colour is decoded from bytes 1..9 and the duration is
     * the little-endian u32 of bytes 9..13. A colour error is returned at once and
     * leaves both fields as they were.
     */
    method UnmarshalBinary(c: Codecs, data: seq<byte>) returns (err: Option<Error>)
      requires Readable(c, LightSetColor, data)
      modifies this
      ensures var r := c.decodeColor(data[1..9]);
        if r.Err? then err == Some(r.error) && color == old(color) && duration == old(duration)
        else err == None && color == r.value && duration == Uint32At(data, 9)
      ensures err == DecodeLightSetColor(c, data).1
      ensures err == None ==> LightSetColorValue(color, duration) == DecodeLightSetColor(c, data).0
    {
      var r := c.decodeColor(data[1..9]);
      if r.Err? {
        return Some(r.error);
      }
      color := r.value;
      duration := Uint32At(data, 9);
      err := None;
    }
  }

  /** `lightSetPowerLanMessage`. */
  class LightSetPowerLanMessage {
    var level: PowerLevel
    var duration: u32

    constructor ()
      ensures level == 0 && duration == 0
    {
      level := 0;
      duration := 0;
    }

    /** Level is the little-endian u16 of bytes 0..2, duration the u32 of bytes 2..6. */
    method UnmarshalBinary(data: seq<byte>) returns (err: Option<Error>)
      requires |data| >= 6
      modifies this
      ensures level == Uint16At(data, 0) && duration == Uint32At(data, 2) && err == None
      ensures LightSetPowerValue(level, duration) == DecodeLightSetPower(data)
    {
      level := Uint16At(data, 0);
      duration := Uint32At(data, 2);
      err := None;
    }
  }

  /** The payload object an envelope holds. */
  datatype Payload =
    | SetPowerPayload(setPower: SetPowerLanMessage)
    | SetLabelPayload(setLabel: SetLabelLanMessage)
    | EchoRequestPayload(echoRequest: EchoRequestLanMessage)
    | LightSetColorPayload(lightSetColor: LightSetColorLanMessage)
    | LightSetPowerPayload(lightSetPower: LightSetPowerLanMessage)

  /** The objects a payload's contents live in. */
  function Footprint(p: Payload): set<object> {
    match p
    case SetPowerPayload(m) => {m}
    case SetLabelPayload(m) => {m}
    case EchoRequestPayload(m) => {m, m.payload}
    case LightSetColorPayload(m) => {m}
    case LightSetPowerPayload(m) => {m}
  }

  /** The current contents of a payload object. */
  ghost function ValueOf(p: Payload): RequestValue
    reads Footprint(p)
  {
    match p
    case SetPowerPayload(m) => SetPowerValue(m.level)
    case SetLabelPayload(m) => SetLabelValue(m.text)
    case EchoRequestPayload(m) => EchoRequestValue(m.payload[..])
    case LightSetColorPayload(m) => LightSetColorValue(m.color, m.duration)
    case LightSetPowerPayload(m) => LightSetPowerValue(m.level, m.duration)
  }

  /** The header codec's verdict on the first LanHeaderSize bytes. */
  function HeaderOf(c: Codecs, data: seq<byte>): Result<LanHeader, Error>
    requires |data| >= LanHeaderSize
  {
    c.decodeHeader(data[..LanHeaderSize])
  }

  /** Go slices the payload without a length check: the buffer must reach every byte the selected decoder slices. */
  predicate PayloadFits(c: Codecs, data: seq<byte>)
    requires |data| >= LanHeaderSize
  {
    match HeaderOf(c, data)
    case Err(_) => true
    case Ok(h) =>
      match GetReceivablePayloadOfType(h.msgType)
      case Ok(Some(k)) => Readable(c, k, data[LanHeaderSize..])
      case _ => true
  }

  /** `receivableLanMessage`: a decoded header and, for payload types, the decoded payload. */
  class ReceivableLanMessage {
    var header: LanHeader
    var payload: Option<Payload>

    constructor ()
      ensures header == ZeroHeader && payload == None
    {
      header := ZeroHeader;
      payload := None;
    }

    /**
     * Decodes the header; a header error is returned unchanged. An unsupported type
     * is an error naming the code; a query type succeeds with no payload assigned;
     * otherwise a fresh payload of the dispatched kind is decoded from the bytes
     * after the header. The payload field is never cleared.
     */
    method UnmarshalBinary(c: Codecs, data: seq<byte>) returns (err: Option<Error>)
      requires |data| >= LanHeaderSize && PayloadFits(c, data)
      modifies this
      ensures HeaderOf(c, data).Err? ==>
        header == ZeroHeader && payload == old(payload) && err == Some(HeaderOf(c, data).error)
      ensures HeaderOf(c, data).Ok? ==> header == HeaderOf(c, data).value
      ensures HeaderOf(c, data).Ok? && GetReceivablePayloadOfType(header.msgType).Err? ==>
        payload == old(payload) && err == Some(UnsupportedType(header.msgType))
      ensures HeaderOf(c, data).Ok? && GetReceivablePayloadOfType(header.msgType) == Ok(None) ==>
        payload == old(payload) && err == None
      ensures HeaderOf(c, data).Ok? && GetReceivablePayloadOfType(header.msgType).Ok?
              && GetReceivablePayloadOfType(header.msgType).value.Some? ==>
        var k := GetReceivablePayloadOfType(header.msgType).value.value;
        var r := DecodeRequest(c, k, data[LanHeaderSize..]);
        payload.Some? && fresh(Footprint(payload.value)) && ValueOf(payload.value) == r.0 && err == r.1
    {
      header := ZeroHeader;
      var hr := c.decodeHeader(data[..LanHeaderSize]);
      if hr.Err? {
        return Some(hr.error);
      }
      header := hr.value;

      var dispatched := GetReceivablePayloadOfType(header.msgType);
      if dispatched.Err? {
        return Some(dispatched.error);
      }
      if dispatched.value.None? {
        return None;
      }

      var body := data[LanHeaderSize..];
      match dispatched.value.value {
        case SetPower =>
          var m := new SetPowerLanMessage();
          payload := Some(SetPowerPayload(m));
          err := m.UnmarshalBinary(body);
        case SetLabel =>
          var m := new SetLabelLanMessage();
          payload := Some(SetLabelPayload(m));
          err := m.UnmarshalBinary(body);
        case EchoRequest =>
          var m := new EchoRequestLanMessage();
          payload := Some(EchoRequestPayload(m));
          err := m.UnmarshalBinary(body);
        case LightSetColor =>
          var m := new LightSetColorLanMessage();
          payload := Some(LightSetColorPayload(m));
          err := m.UnmarshalBinary(c, body);
        case LightSetPower =>
          var m := new LightSetPowerLanMessage();
          payload := Some(LightSetPowerPayload(m));
          err := m.UnmarshalBinary(body);
      }
    }
  }
}
