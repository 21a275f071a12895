/**
 * Type dispatch of `server/lan.go`: which payload, if any, follows a header of a
 * given message type.
 */
module LanDispatch {
  import opened Wrappers
  import opened Binary
  import opened Controlifx

  /** The request payloads the emulator decodes. */
  datatype RequestKind = SetPower | SetLabel | EchoRequest | LightSetColor | LightSetPower

  /** The fixed number of payload bytes each request kind reads. */
  function RequestSize(k: RequestKind): nat {
    match k
    case SetPower => 2
    case SetLabel => 32
    case EchoRequest => 64
    case LightSetColor => 13
    case LightSetPower => 6
  }

  /** Reference table: the request types that carry a decodable payload. */
  const PayloadTypes: map<u16, RequestKind> := map[
    SetPowerType := SetPower,
    SetLabelType := SetLabel,
    EchoRequestType := EchoRequest,
    LightSetColorType := LightSetColor,
    LightSetPowerType := LightSetPower]

  /** Reference table: the query types that carry no payload at all. */
  const QueryTypes: set<u16> := {
    GetServiceType, GetHostInfoType, GetHostFirmwareType, GetWifiInfoType,
    GetWifiFirmwareType, GetPowerType, GetLabelType, GetVersionType, GetInfoType,
    GetLocationType, GetGroupType, LightGetType, LightGetPowerType}

  /** The tables classify five payload types and thirteen query types, and none twice. */
  lemma TablesAreDisjoint()
    ensures |PayloadTypes| == 5 && |QueryTypes| == 13
    ensures PayloadTypes.Keys !! QueryTypes
  {
    PayloadTypesCount();
    QueryTypesCount();
    TablesDisjoint();
  }

  // Each fact is proved on its own: the solver runs out of resource when it is given all three at once.

  lemma PayloadTypesCount()
    ensures |PayloadTypes| == 5
  {
  }

  lemma QueryTypesCount()
    ensures |QueryTypes| == 13
  {
  }

  lemma TablesDisjoint()
    ensures PayloadTypes.Keys !! QueryTypes
  {
  }

  /**
   * `getReceivablePayloadOfType`: Ok(Some(kind)) for a type with a payload,
   * Ok(None) for a query type, and an error naming the code for anything else.
   */
  function GetReceivablePayloadOfType(t: u16): (r: Result<Option<RequestKind>, Error>)
    ensures r.Ok? && r.value.Some? <==> t in PayloadTypes
    ensures r.Ok? && r.value.Some? ==> r.value.value == PayloadTypes[t]
    ensures r.Ok? && r.value.None? <==> t in QueryTypes
    ensures r.Err? <==> t !in PayloadTypes && t !in QueryTypes
    ensures r.Err? ==> r.error == UnsupportedType(t)
  {
    if t == SetPowerType then Ok(Some(SetPower))
    else if t == SetLabelType then Ok(Some(SetLabel))
    else if t == EchoRequestType then Ok(Some(EchoRequest))
    else if t == LightSetColorType then Ok(Some(LightSetColor))
    else if t == LightSetPowerType then Ok(Some(LightSetPower))
    else if t == GetServiceType || t == GetHostInfoType || t == GetHostFirmwareType
         || t == GetWifiInfoType || t == GetWifiFirmwareType || t == GetPowerType
         || t == GetLabelType || t == GetVersionType || t == GetInfoType
         || t == GetLocationType || t == GetGroupType || t == LightGetType
         || t == LightGetPowerType then Ok(None)
    else Err(UnsupportedType(t))
  }

  /** A code the protocol leaves unassigned is rejected rather than given a default payload. */
  lemma UnassignedTypeIsUnsupported()
    ensures GetReceivablePayloadOfType(0xFFFF) == Err(UnsupportedType(0xFFFF))
  {
  }
}
