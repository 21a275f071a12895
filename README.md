# LIFX LAN payload codec of the emulifx emulator, in Dafny

This project models `server/lan.go` of the emulifx LIFX bulb emulator. That file is the
payload codec of the LIFX LAN protocol as the emulator uses it. It has three parts:

- **Type dispatch** (`getReceivablePayloadOfType`). A 16-bit message type maps to one of
  three outcomes: one of five decodable request payloads, "no payload" for thirteen query
  types, or an error that carries the code.
- **Request decoding.** The envelope's `UnmarshalBinary` decodes the header, dispatches on
  its type and decodes the payload that follows the header. The five payload structs
  (SetPower, SetLabel, EchoRequest, LightSetColor, LightSetPower) are filled in place from
  fixed little-endian offsets.
- **Response encoding.** Fourteen `MarshalBinary` methods. Eleven of them allocate a zeroed
  buffer of fixed length, write little-endian integers and raw copies into it, and delegate
  fields to the Color, Label, PowerLevel and Timestamp encoders. The other three
  (StatePower, StateLabel, LightStatePower) allocate nothing: they return the PowerLevel or
  Label encoder's result as it is.

Files and modules:

| file | module | contents |
|---|---|---|
| `wrappers.dfy` | `Wrappers` | `Option`, `Result` |
| `binary.dfy` | `Binary` | fixed-width integers; Go's `binary.LittleEndian` reads and writes, `bytes.TrimRight(_, "\x00")`, zeroed `make` and `copy`; round-trip lemmas |
| `controlifx.dfy` | `Controlifx` | what the file imports from controlifx: header size, type codes, scalar types, and the foreign codecs as a `Codecs` value with length contracts (`Lawful`) |
| `lan_dispatch.dfy` | `LanDispatch` | the dispatcher, proved against a reference table |
| `lan_requests.dfy` | `LanRequests` | the five request classes, the envelope class, the layout function `DecodeRequest` and its lemmas |
| `lan_responses.dfy` | `LanResponses` | the fourteen response datatypes with their `MarshalBinary` methods; the echo round trip |

How the model follows the code:
- Go's pointer-receiver decoders become classes whose `UnmarshalBinary` has `modifies`. The
  echo payload `[64]byte` is an `array<byte>` that is filled in place.
- Each class method's postcondition ties its fields to the layout function of its kind
  (`DecodeSetPower`, `DecodeSetLabel`, `DecodeEchoRequest`, `DecodeLightSetColor`,
  `DecodeLightSetPower`). `DecodeRequest` dispatches to these, so the lemmas about it apply
  to what the methods store.
- The value-receiver encoders become member methods of datatypes. Those that build a buffer
  allocate `new byte[n](_ => 0)`, fill slices with `PutUint`/`CopyInto` and return the
  array's contents.
- Each encoder's postcondition says what every field reads back as, with `Uint`. It states
  the buffer length and which ranges are zero. `LeBytesOfUint` and `UintInjective` show that
  these facts fix every byte.
- Go's `copy` moves `min(len(dst), len(src))` bytes. `CopyInto` models exactly that.
  Under `Lawful`, each scalar encoder fills its slot exactly.

Where the code differs from a natural reading of the protocol description:
- The envelope decoder never clears `Payload`. After a header error, an unsupported type or
  a query type, the payload field keeps its previous value (`payload == old(payload)`); it is
  not reset to "none".
- Errors from the header and colour decoders are passed back unchanged, not wrapped.
- When a scalar encoder fails in StateLocation, StateGroup or LightState, the named result
  `data` is still returned. It is the full-length buffer, filled up to the failing field and
  zero from there on. The model returns that same buffer.

## Model

| member | source | states |
|---|---|---|
| `LanDispatch.GetReceivablePayloadOfType` | server/lan.go:59-104 | the five payload types yield Ok(Some(their kind)); the thirteen query types yield Ok(None); any other code yields Err(UnsupportedType(code)); each direction is proved against the reference tables |
| `LanDispatch.TablesAreDisjoint` | server/lan.go:62-98 | the switch classifies exactly five payload types and thirteen query types, and no code is in both groups |
| `LanDispatch.UnassignedTypeIsUnsupported` | server/lan.go:99-100 | an unassigned code (0xFFFF) is rejected with an error naming it, never given a default payload |
| `LanRequests.ReceivableLanMessage.UnmarshalBinary` | server/lan.go:38-57 | decoding happens in order: a header error is returned unchanged, with the header reset and the payload untouched; an unsupported type returns its error with the payload untouched; a query type succeeds with the payload untouched; otherwise a fresh payload of the dispatched kind holds `DecodeRequest` of `data[LanHeaderSize..]`, and that decode's error is returned |
| `LanRequests.SetPowerLanMessage.UnmarshalBinary` | server/lan.go:106-110 | level is the little-endian u16 of bytes 0..2, as `DecodeSetPower` gives; no error |
| `LanRequests.SetLabelLanMessage.UnmarshalBinary` | server/lan.go:112-116 | the label is the first 32 bytes with trailing zeros stripped: it is a prefix of `data[..32]`, at most 32 bytes long, and does not end in a zero byte |
| `LanRequests.EchoRequestLanMessage.UnmarshalBinary` | server/lan.go:118-122 | the fixed 64-byte payload array (`Valid`) holds exactly `data[..64]` |
| `LanRequests.LightSetColorLanMessage.UnmarshalBinary` | server/lan.go:124-132 | a colour error from bytes 1..9 is returned and neither field changes, and then 9 bytes suffice; otherwise the colour is the decoded one and the duration is the little-endian u32 of bytes 9..13, as `DecodeLightSetColor` gives |
| `LanRequests.LightSetPowerLanMessage.UnmarshalBinary` | server/lan.go:134-139 | level is the u16 of bytes 0..2 and duration the u32 of bytes 2..6, as `DecodeLightSetPower` gives |
| `LanRequests.DecodeIgnoresTrailingBytes` | server/lan.go:106-139 | every payload decoder reads only its fixed-length front (2, 32, 64, 13 or 6 bytes): appending bytes changes nothing |
| `LanRequests.LightSetColorIgnoresReservedByte` | server/lan.go:124-132 | the value of byte 0 of a LightSetColor payload never changes the decoded result |
| `LanRequests.OnlyColorDecodingFails` | server/lan.go:106-139 | a payload decode fails exactly when it is LightSetColor and the colour decoder fails, and the error is the colour decoder's (on every input the decoders can read, short error-path ones included) |
| `LanRequests.SetPowerRoundTrip` | server/lan.go:106-110 | a level written little-endian in front of any bytes decodes back to that level |
| `LanRequests.SetLabelRoundTrip` | server/lan.go:112-116 | a label of at most 32 bytes that does not end in zero, zero-padded to 32 bytes, decodes back to itself |
| `Binary.TrimRightZeros` | server/lan.go:113 | the trimmed label is a prefix of the input, does not end in zero, and the input is that prefix followed by zeros |
| `Binary.TrimRightZerosUnique` | server/lan.go:113 | that split into a prefix not ending in zero plus a zero tail is unique |
| `Binary.Uint` | server/lan.go:107 | a little-endian field of n bytes holds a value below 256^n |
| `Binary.UintOfLeBytes` | server/lan.go:148 | reading back a little-endian encoding gives the encoded value |
| `Binary.LeBytesOfUint` | server/lan.go:157-163 | every byte string is the little-endian encoding of the value it holds |
| `Binary.UintInjective` | server/lan.go:141-151 | two fields of one width that hold the same value are the same bytes |
| `Binary.Int64Bits` | server/lan.go:234 | `uint64(o.Time)` is the time reduced modulo 2^64, and its top bit is set exactly when the time is negative |
| `Binary.PutUint` | server/lan.go:148 | the written slice is the little-endian encoding and reads back as the value; no other byte changes |
| `Binary.CopyInto` | server/lan.go:249 | `copy` moves min(destination, source) bytes to the front of the destination and changes nothing else |
| `LanResponses.StateServiceLanMessage.MarshalBinary` | server/lan.go:141-151 | 5 bytes: byte 0 is the service and bytes 1..5 read back as the port |
| `LanResponses.StateHostInfoLanMessage.MarshalBinary` | server/lan.go:153-166 | 12 bytes: bytes 0..4, 4..8 and 8..12 read back as signal bits, tx and rx |
| `LanResponses.StateHostFirmwareLanMessage.MarshalBinary` | server/lan.go:168-178 | 12 bytes: bytes 0..8 read back as the build and bytes 8..12 as the version |
| `LanResponses.StateWifiInfoLanMessage.MarshalBinary` | server/lan.go:180-193 | 12 bytes in the StateHostInfo layout |
| `LanResponses.StateWifiFirmwareLanMessage.MarshalBinary` | server/lan.go:195-205 | 12 bytes in the StateHostFirmware layout |
| `LanResponses.StatePowerLanMessage.MarshalBinary` | server/lan.go:207-209 | the power level encoder's 2 bytes, or that encoder's error |
| `LanResponses.StateLabelLanMessage.MarshalBinary` | server/lan.go:211-213 | the label encoder's 32 bytes, or that encoder's error |
| `LanResponses.StateVersionLanMessage.MarshalBinary` | server/lan.go:215-228 | 12 bytes: bytes 0..4, 4..8 and 8..12 read back as vendor, product and version |
| `LanResponses.StateInfoLanMessage.MarshalBinary` | server/lan.go:230-243 | 24 bytes: bytes 0..8 read back as the time's two's-complement bits, 8..16 as uptime and 16..24 as downtime |
| `LanResponses.StateLocationLanMessage.MarshalBinary` | server/lan.go:245-266 | 56 bytes: the location id at 0..16, the label encoding at 16..48 and the timestamp encoding at 48..56; an encoder error is returned, and every byte after the last field written is zero |
| `LanResponses.StateGroupLanMessage.MarshalBinary` | server/lan.go:268-289 | the StateLocation layout, with the group id at 0..16 |
| `LanResponses.EchoResponseLanMessage.MarshalBinary` | server/lan.go:291-297 | the 64 payload bytes, verbatim |
| `LanResponses.LightStateLanMessage.MarshalBinary` | server/lan.go:299-324 | 44 bytes: the colour at 0..8, bytes 8..10 always zero, power at 10..12 and label at 12..44; a failing encoder's error is returned, and every byte after the last field written is zero |
| `LanResponses.LightStatePowerLanMessage.MarshalBinary` | server/lan.go:326-328 | the power level encoder's 2 bytes, or that encoder's error |
| `LanResponses.EchoRoundTrip` | server/lan.go:118-122 | decoding an EchoRequest and encoding an EchoResponse with its payload reproduces the first 64 bytes of the input |

## Left out

- The header codec (`LanHeader.UnmarshalBinary`) belongs to controlifx, which is not part of
  this model. Here it is the foreign function `Codecs.decodeHeader`. `LanHeader` keeps only
  the message type, and `LanHeaderSize` is 36, the LIFX header length.
- The message type constants are defined in controlifx. The model uses the LIFX LAN
  protocol's numbers for them; the proofs use the fact that the eighteen codes are distinct. `UnassignedTypeIsUnsupported`
  also uses their values, because 0xFFFF must be none of them.
- The Color, Label, PowerLevel and Timestamp codecs are foreign. They are parameters of type
  `Codecs`. Of them, the model knows only that each may fail and, through `Lawful`, the
  lengths of what the encoders produce (8, 32, 2 and 8 bytes).
- When a foreign encoder fails, the bytes it returns next to the error are modelled as empty.
  This shows in StatePower, StateLabel and LightStatePower, which return them.
- `LanRequests.LightSetColorLanMessage.UnmarshalBinary`: any partial writes a failing colour
  decoder makes to `Color` are not modelled. On failure the colour keeps its previous value.
- `LanRequests.ReceivableLanMessage.UnmarshalBinary`: any partial writes a failing header
  codec makes are not modelled. On failure the header is the zero header set at line 40.
- `math.Float32bits` is floating point. The signal fields of StateHostInfo and StateWifiInfo
  are modelled as their 32-bit patterns.
- The text of the unsupported-type error is left out. The error keeps the offending code.
- Inputs shorter than the bytes a decoder slices are outside the model. A Go slice
  expression is bounded by the slice's capacity, not its length, so such inputs either
  panic or read past `len(data)`. The preconditions (`Readable`, `PayloadFits`) require
  exactly the bytes each decoder slices. That is the fixed length, except that a
  LightSetColor payload whose colour fails to decode needs only 9 bytes, since lan.go:125-126
  returns the error before slicing `data[9:13]`.
- StateService's `byte(o.Service)` conversion: the service is modelled as an 8-bit value, so
  the conversion is the identity. Truncation of a wider field is not modelled.
- Encoders whose error result is always nil return only the bytes.
- Go's interface values (`encoding.BinaryUnmarshaler` as the envelope's payload) are modelled
  by the `Payload` datatype over the five request classes.
