/**
 * The collaborators `server/lan.go` takes from the controlifx package: the header
 * length, the message type codes, the shared scalar types and their codecs.
 * The codecs are foreign code; the model receives them as a `Codecs` value of
 * functions and knows of them only the length contracts in `Lawful`.
 */
module Controlifx {
  import opened Wrappers
  import opened Binary

  /** Byte length of the frame, frame-address and protocol headers together. */
  const LanHeaderSize: nat := 36

  // Message type codes, as the LIFX LAN protocol numbers them.
  const GetServiceType: u16 := 2
  const GetHostInfoType: u16 := 12
  const GetHostFirmwareType: u16 := 14
  const GetWifiInfoType: u16 := 16
  const GetWifiFirmwareType: u16 := 18
  const GetPowerType: u16 := 20
  const SetPowerType: u16 := 21
  const GetLabelType: u16 := 23
  const SetLabelType: u16 := 24
  const GetVersionType: u16 := 32
  const GetInfoType: u16 := 34
  const GetLocationType: u16 := 48
  const GetGroupType: u16 := 51
  const EchoRequestType: u16 := 58
  const LightGetType: u16 := 101
  const LightSetColorType: u16 := 102
  const LightGetPowerType: u16 := 116
  const LightSetPowerType: u16 := 117

  /** The decoded header; only its message type matters to this package. */
  datatype LanHeader = LanHeader(msgType: u16)

  /** The zero value `controlifx.LanHeader{}`. */
  const ZeroHeader := LanHeader(0)

  type PowerLevel = u16

  /** Label text: the raw bytes of a Go string. */
  type Label = seq<byte>

  /** Nanoseconds since the Unix epoch. */
  type Timestamp = i64

  /** Hue, saturation, brightness and kelvin. */
  datatype Color = Color(hue: u16, saturation: u16, brightness: u16, kelvin: u16)

  const ZeroColor := Color(0, 0, 0, 0)

  /** An unsupported message type carries its code; errors of foreign codecs are opaque. */
  datatype Error = UnsupportedType(code: u16) | External(reason: string)

  const ColorSize: nat := 8
  const PowerLevelSize: nat := 2
  const LabelSize: nat := 32
  const TimestampSize: nat := 8

  /** The foreign codecs, each of which may fail. */
  datatype Codecs = Codecs(
    decodeHeader: seq<byte> -> Result<LanHeader, Error>,
    decodeColor: seq<byte> -> Result<Color, Error>,
    encodeColor: Color -> Result<seq<byte>, Error>,
    encodePowerLevel: PowerLevel -> Result<seq<byte>, Error>,
    encodeLabel: Label -> Result<seq<byte>, Error>,
    encodeTimestamp: Timestamp -> Result<seq<byte>, Error>)

  /** The length contracts of the scalar encoders: whatever they produce has the scalar's fixed size. */
  ghost predicate Lawful(c: Codecs) {
    && (forall x :: c.encodeColor(x).Ok? ==> |c.encodeColor(x).value| == ColorSize)
    && (forall x :: c.encodePowerLevel(x).Ok? ==> |c.encodePowerLevel(x).value| == PowerLevelSize)
    && (forall x :: c.encodeLabel(x).Ok? ==> |c.encodeLabel(x).value| == LabelSize)
    && (forall x :: c.encodeTimestamp(x).Ok? ==> |c.encodeTimestamp(x).value| == TimestampSize)
  }
}
