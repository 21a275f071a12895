/**
 * Response encoding of `server/lan.go`: fourteen response payloads, each a value
 * whose `MarshalBinary` fills a zeroed buffer of the payload's fixed length with
 * little-endian integers, raw byte copies and the output of the scalar encoders.
 */
module LanResponses {
  import opened Wrappers
  import opened Binary
  import opened Controlifx
  import LanRequests

  type Bytes16 = s: seq<byte> | |s| == 16 witness Zeros(16)
  type Bytes64 = s: seq<byte> | |s| == 64 witness Zeros(64)

  /** `stateServiceLanMessage`: 5 bytes, service at 0 and port at 1..5. */
  datatype StateServiceLanMessage = StateServiceLanMessage(service: byte, port: u32) {
    method MarshalBinary() returns (data: seq<byte>)
      ensures |data| == 5
      ensures data[0] == service && Uint(data[1..5]) == port as nat
    {
      FieldRanges();
      var a := new byte[5](_ => 0);
      a[0] := service;
      PutUint(a, 1, 4, port as nat);
      data := a[..];
    }
  }

  /** `stateHostInfoLanMessage`: 12 bytes, signal bits, tx and rx. */
  datatype StateHostInfoLanMessage = StateHostInfoLanMessage(signal: u32, tx: u32, rx: u32) {
    method MarshalBinary() returns (data: seq<byte>)
      ensures |data| == 12
      ensures Uint(data[0..4]) == signal as nat
      ensures Uint(data[4..8]) == tx as nat
      ensures Uint(data[8..12]) == rx as nat
    {
      FieldRanges();
      var a := new byte[12](_ => 0);
      PutUint(a, 0, 4, signal as nat);
      ghost var signalBytes := a[0..4];
      PutUint(a, 4, 4, tx as nat);
      ghost var txBytes := a[4..8];
      PutUint(a, 8, 4, rx as nat);
      assert a[0..4] == signalBytes && a[4..8] == txBytes;
      data := a[..];
    }
  }

  /** `stateHostFirmwareLanMessage`: 12 bytes, a u64 build and a u32 version. */
  datatype StateHostFirmwareLanMessage = StateHostFirmwareLanMessage(build: u64, version: u32) {
    method MarshalBinary() returns (data: seq<byte>)
      ensures |data| == 12
      ensures Uint(data[0..8]) == build as nat
      ensures Uint(data[8..12]) == version as nat
    {
      FieldRanges();
      var a := new byte[12](_ => 0);
      PutUint(a, 0, 8, build as nat);
      ghost var buildBytes := a[0..8];
      PutUint(a, 8, 4, version as nat);
      assert a[0..8] == buildBytes;
      data := a[..];
    }
  }

  /** `stateWifiInfoLanMessage`: the layout of StateHostInfo. */
  datatype StateWifiInfoLanMessage = StateWifiInfoLanMessage(signal: u32, tx: u32, rx: u32) {
    method MarshalBinary() returns (data: seq<byte>)
      ensures |data| == 12
      ensures Uint(data[0..4]) == signal as nat
      ensures Uint(data[4..8]) == tx as nat
      ensures Uint(data[8..12]) == rx as nat
    {
      FieldRanges();
      var a := new byte[12](_ => 0);
      PutUint(a, 0, 4, signal as nat);
      ghost var signalBytes := a[0..4];
      PutUint(a, 4, 4, tx as nat);
      ghost var txBytes := a[4..8];
      PutUint(a, 8, 4, rx as nat);
      assert a[0..4] == signalBytes && a[4..8] == txBytes;
      data := a[..];
    }
  }

  /** `stateWifiFirmwareLanMessage`: the layout of StateHostFirmware. */
  datatype StateWifiFirmwareLanMessage = StateWifiFirmwareLanMessage(build: u64, version: u32) {
    method MarshalBinary() returns (data: seq<byte>)
      ensures |data| == 12
      ensures Uint(data[0..8]) == build as nat
      ensures Uint(data[8..12]) == version as nat
    {
      FieldRanges();
      var a := new byte[12](_ => 0);
      PutUint(a, 0, 8, build as nat);
      ghost var buildBytes := a[0..8];
      PutUint(a, 8, 4, version as nat);
      assert a[0..8] == buildBytes;
      data := a[..];
    }
  }

  /** `statePowerLanMessage`: the power level's own encoding. */
  datatype StatePowerLanMessage = StatePowerLanMessage(level: PowerLevel) {
    method MarshalBinary(c: Codecs) returns (data: seq<byte>, err: Option<Error>)
      requires Lawful(c)
      ensures c.encodePowerLevel(level).Ok? ==>
        err == None && data == c.encodePowerLevel(level).value && |data| == PowerLevelSize
      ensures c.encodePowerLevel(level).Err? ==>
        err == Some(c.encodePowerLevel(level).error) && data == []
    {
      var r := c.encodePowerLevel(level);
      if r.Err? {
        return [], Some(r.error);
      }
      data, err := r.value, None;
    }
  }

  /** `stateLabelLanMessage`: the label's own encoding. */
  datatype StateLabelLanMessage = StateLabelLanMessage(text: Label) {
    method MarshalBinary(c: Codecs) returns (data: seq<byte>, err: Option<Error>)
      requires Lawful(c)
      ensures c.encodeLabel(text).Ok? ==>
        err == None && data == c.encodeLabel(text).value && |data| == LabelSize
      ensures c.encodeLabel(text).Err? ==>
        err == Some(c.encodeLabel(text).error) && data == []
    {
      var r := c.encodeLabel(text);
      if r.Err? {
        return [], Some(r.error);
      }
      data, err := r.value, None;
    }
  }

  /** `stateVersionLanMessage`: 12 bytes, vendor, product and version. */
  datatype StateVersionLanMessage = StateVersionLanMessage(vendor: u32, product: u32, version: u32) {
    method MarshalBinary() returns (data: seq<byte>)
      ensures |data| == 12
      ensures Uint(data[0..4]) == vendor as nat
      ensures Uint(data[4..8]) == product as nat
      ensures Uint(data[8..12]) == version as nat
    {
      FieldRanges();
      var a := new byte[12](_ => 0);
      PutUint(a, 0, 4, vendor as nat);
      ghost var vendorBytes := a[0..4];
      PutUint(a, 4, 4, product as nat);
      ghost var productBytes := a[4..8];
      PutUint(a, 8, 4, version as nat);
      assert a[0..4] == vendorBytes && a[4..8] == productBytes;
      data := a[..];
    }
  }

  /** `stateInfoLanMessage`: 24 bytes, the time's two's-complement bits, uptime and downtime. */
  datatype StateInfoLanMessage = StateInfoLanMessage(time: Timestamp, uptime: u64, downtime: u64) {
    method MarshalBinary() returns (data: seq<byte>)
      ensures |data| == 24
      ensures Uint(data[0..8]) == Int64Bits(time) as nat
      ensures Uint(data[8..16]) == uptime as nat
      ensures Uint(data[16..24]) == downtime as nat
    {
      FieldRanges();
      var a := new byte[24](_ => 0);
      PutUint(a, 0, 8, Int64Bits(time) as nat);
      ghost var timeBytes := a[0..8];
      PutUint(a, 8, 8, uptime as nat);
      ghost var uptimeBytes := a[8..16];
      PutUint(a, 16, 8, downtime as nat);
      assert a[0..8] == timeBytes && a[8..16] == uptimeBytes;
      data := a[..];
    }
  }

  /**
   * `stateLocationLanMessage`: 56 bytes, the location id at 0..16, the label at
   * 16..48 and the update time at 48..56. An encoder error is returned with the
   * buffer as filled so far.
   */
  datatype StateLocationLanMessage = StateLocationLanMessage(location: Bytes16, text: Label, updatedAt: Timestamp) {
    method MarshalBinary(c: Codecs) returns (data: seq<byte>, err: Option<Error>)
      requires Lawful(c)
      ensures |data| == 56 && data[..16] == location
      ensures c.encodeLabel(text).Err? ==>
        err == Some(c.encodeLabel(text).error) && data[16..] == Zeros(40)
      ensures c.encodeLabel(text).Ok? ==> data[16..48] == c.encodeLabel(text).value
      ensures c.encodeLabel(text).Ok? && c.encodeTimestamp(updatedAt).Err? ==>
        err == Some(c.encodeTimestamp(updatedAt).error) && data[48..] == Zeros(8)
      ensures c.encodeLabel(text).Ok? && c.encodeTimestamp(updatedAt).Ok? ==>
        err == None && data[48..] == c.encodeTimestamp(updatedAt).value
    {
      var a := new byte[56](_ => 0);
      var n := CopyInto(a, 0, 16, location);
      var b := c.encodeLabel(text);
      if b.Err? {
        return a[..], Some(b.error);
      }
      n := CopyInto(a, 16, 48, b.value);
      ghost var labelBytes := a[16..48];
      assert a[..16] == location;
      b := c.encodeTimestamp(updatedAt);
      if b.Err? {
        return a[..], Some(b.error);
      }
      n := CopyInto(a, 48, 56, b.value);
      assert a[..16] == location && a[16..48] == labelBytes;
      assert a[48..] == a[48..56] == b.value;
      data, err := a[..], None;
    }
  }

  /** `stateGroupLanMessage`: the layout of StateLocation with a group id. */
  datatype StateGroupLanMessage = StateGroupLanMessage(group: Bytes16, text: Label, updatedAt: Timestamp) {
    method MarshalBinary(c: Codecs) returns (data: seq<byte>, err: Option<Error>)
      requires Lawful(c)
      ensures |data| == 56 && data[..16] == group
      ensures c.encodeLabel(text).Err? ==>
        err == Some(c.encodeLabel(text).error) && data[16..] == Zeros(40)
      ensures c.encodeLabel(text).Ok? ==> data[16..48] == c.encodeLabel(text).value
      ensures c.encodeLabel(text).Ok? && c.encodeTimestamp(updatedAt).Err? ==>
        err == Some(c.encodeTimestamp(updatedAt).error) && data[48..] == Zeros(8)
      ensures c.encodeLabel(text).Ok? && c.encodeTimestamp(updatedAt).Ok? ==>
        err == None && data[48..] == c.encodeTimestamp(updatedAt).value
    {
      var a := new byte[56](_ => 0);
      var n := CopyInto(a, 0, 16, group);
      var b := c.encodeLabel(text);
      if b.Err? {
        return a[..], Some(b.error);
      }
      n := CopyInto(a, 16, 48, b.value);
      ghost var labelBytes := a[16..48];
      assert a[..16] == group;
      b := c.encodeTimestamp(updatedAt);
      if b.Err? {
        return a[..], Some(b.error);
      }
      n := CopyInto(a, 48, 56, b.value);
      assert a[..16] == group && a[16..48] == labelBytes;
      assert a[48..] == a[48..56] == b.value;
      data, err := a[..], None;
    }
  }

  /** `echoResponseLanMessage`: the 64 payload bytes, verbatim. */
  datatype EchoResponseLanMessage = EchoResponseLanMessage(payload: Bytes64) {
    method MarshalBinary() returns (data: seq<byte>)
      ensures data == payload
    {
      var a := new byte[64](_ => 0);
      var n := CopyInto(a, 0, 64, payload);
      data := a[..];
    }
  }

  /**
   * `lightStateLanMessage`: 44 bytes, the colour at 0..8, two reserved zero bytes,
   * the power at 10..12 and the label at 12..44. An encoder error is returned with
   * the buffer as filled so far.
   */
  datatype LightStateLanMessage = LightStateLanMessage(color: Color, power: PowerLevel, text: Label) {
    method MarshalBinary(c: Codecs) returns (data: seq<byte>, err: Option<Error>)
      requires Lawful(c)
      ensures |data| == 44 && data[8..10] == [0, 0]
      ensures c.encodeColor(color).Err? ==>
        err == Some(c.encodeColor(color).error) && data == Zeros(44)
      ensures c.encodeColor(color).Ok? ==> data[..8] == c.encodeColor(color).value
      ensures c.encodeColor(color).Ok? && c.encodePowerLevel(power).Err? ==>
        err == Some(c.encodePowerLevel(power).error) && data[10..] == Zeros(34)
      ensures c.encodeColor(color).Ok? && c.encodePowerLevel(power).Ok? ==>
        data[10..12] == c.encodePowerLevel(power).value
      ensures c.encodeColor(color).Ok? && c.encodePowerLevel(power).Ok? && c.encodeLabel(text).Err? ==>
        err == Some(c.encodeLabel(text).error) && data[12..] == Zeros(32)
      ensures c.encodeColor(color).Ok? && c.encodePowerLevel(power).Ok? && c.encodeLabel(text).Ok? ==>
        err == None && data[12..] == c.encodeLabel(text).value
    {
      var a := new byte[44](_ => 0);
      var b := c.encodeColor(color);
      if b.Err? {
        return a[..], Some(b.error);
      }
      var n := CopyInto(a, 0, 8, b.value);
      ghost var colorBytes := a[..8];
      b := c.encodePowerLevel(power);
      if b.Err? {
        return a[..], Some(b.error);
      }
      n := CopyInto(a, 10, 12, b.value);
      ghost var powerBytes := a[10..12];
      assert a[..8] == colorBytes;
      b := c.encodeLabel(text);
      if b.Err? {
        return a[..], Some(b.error);
      }
      n := CopyInto(a, 12, 44, b.value);
      assert a[..8] == colorBytes && a[10..12] == powerBytes;
      assert a[12..] == a[12..44] == b.value;
      data, err := a[..], None;
    }
  }

  /** `lightStatePowerLanMessage`: the power level's own encoding. */
  datatype LightStatePowerLanMessage = LightStatePowerLanMessage(level: PowerLevel) {
    method MarshalBinary(c: Codecs) returns (data: seq<byte>, err: Option<Error>)
      requires Lawful(c)
      ensures c.encodePowerLevel(level).Ok? ==>
        err == None && data == c.encodePowerLevel(level).value && |data| == PowerLevelSize
      ensures c.encodePowerLevel(level).Err? ==>
        err == Some(c.encodePowerLevel(level).error) && data == []
    {
      var r := c.encodePowerLevel(level);
      if r.Err? {
        return [], Some(r.error);
      }
      data, err := r.value, None;
    }
  }

  /**
   * An echo request decoded from a buffer and answered with its payload
   * reproduces the buffer's first 64 bytes.
   */
  method EchoRoundTrip(data: seq<byte>) returns (out: seq<byte>)
    requires |data| >= 64
    ensures out == data[..64]
  {
    var request := new LanRequests.EchoRequestLanMessage();
    var err := request.UnmarshalBinary(data);
    var response := EchoResponseLanMessage(request.payload[..]);
    out := response.MarshalBinary();
  }
}
