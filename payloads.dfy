/** The payload records of lib/Konnected/Models/Payloads.ts: what a push message or a GET
    response carries once parsed, the conditions each interface documents for it, and the
    parameter records a POST takes. */
module Payloads {
  import opened Values
  import Enums
  import DeviceEvents

  /** A parsed payload: BasePayload's `id` and `state`, and the two kind-specific fields the
      core reads (`value` and `position`, `Undefined` when the JSON has no such field). */
  datatype StatePayload = StatePayload(id: string, state: string, value: Value, position: Value)

  /** What `JSON.parse` or `Response.json()` makes of a message body, as far as the core reads
      it: an object with the payload fields, `null`, or text that is not JSON (the parser
      throws). */
  datatype Parsed = Payload(payload: StatePayload) | JsonNull | NotJson

  /** The payload interfaces. */
  datatype PayloadKind =
    | GarageDoorStatePayload
    | GarageLightStatePayload
    | GarageRemoteControlLockStatePayload
    | MotionSensorStatePayload
    | ProtocolSyncStatePayload
    | ObstructionStatePayload
    | GarageOpenerMotorStatePayload
    | WallButtonStatePayload
    | GarageOpeningsPayload
    | SecurityProtocolPayload
    | LearnModeStatePayload
    | WifiSignalRssiPayload
    | WifiSignalPercentPayload
    | UptimePayload
    | DeviceIdPayload
    | IPAddressPayload
    | ToggleOnlyPayload

  /** The interfaces that extend OnOffStatePayload. */
  predicate IsOnOffKind(k: PayloadKind) {
    k in {MotionSensorStatePayload, ProtocolSyncStatePayload, ObstructionStatePayload,
          GarageOpenerMotorStatePayload, WallButtonStatePayload, LearnModeStatePayload,
          ToggleOnlyPayload}
  }

  /** OnOffStatePayload: the state is ON or OFF and `value` is true exactly when it is ON. */
  predicate OnOffState(voc: DeviceEvents.Vocabulary, p: StatePayload) {
    (p.state == voc.on || p.state == voc.off) && p.value == Bool(p.state == voc.on)
  }

  /** GarageDoorStatePayload: OPEN with value 1 or CLOSED with value 0, and a numeric position. */
  predicate DoorState(voc: DeviceEvents.Vocabulary, p: StatePayload) {
    ((p.state == voc.doorOpen && p.value == Num(1.0)) ||
     (p.state == voc.doorClosed && p.value == Num(0.0))) &&
    p.position.Num?
  }

  /** GarageLightStatePayload: ON or OFF. */
  predicate LightState(voc: DeviceEvents.Vocabulary, p: StatePayload) {
    p.state == voc.on || p.state == voc.off
  }

  /** GarageRemoteControlLockStatePayload: a numeric value and a LockStates word. */
  predicate LockStatePayload(p: StatePayload) {
    p.value.Num? && Enums.IsLockText(p.state)
  }

  /** GarageOpeningsPayload: a whole number of openings, or null exactly when the state is NA. */
  predicate OpeningsState(p: StatePayload) {
    (p.value == Null <==> p.state == "NA") &&
    (p.value.Null? || (p.value.Num? && IsInteger(p.value.n) && p.value.n >= 0.0))
  }

  /** SecurityProtocolPayload: the value is one of the SecurityProtocols strings. */
  predicate ProtocolState(p: StatePayload) {
    p.value.Str? && Enums.IsProtocolText(p.value.s)
  }

  /** WifiSignalRssiPayload: the RSSI in dBm, a negative integer. */
  predicate RssiState(p: StatePayload) {
    p.value.Num? && IsInteger(p.value.n) && p.value.n < 0.0
  }

  /** WifiSignalPercentPayload: a percentage between 0 and 100. */
  predicate PercentState(p: StatePayload) {
    p.value.Num? && 0.0 <= p.value.n <= 100.0
  }

  /** UptimePayload: a number of seconds since boot. */
  predicate UptimeState(p: StatePayload) {
    p.value.Num? && p.value.n >= 0.0
  }

  /** DeviceIdPayload: value and state are the 12-character device id. */
  predicate DeviceIdState(p: StatePayload) {
    p.value.Str? && |p.value.s| == 12 && |p.state| == 12
  }

  /** IPAddressPayload: a textual IPv4 address. */
  predicate IPAddressState(p: StatePayload) {
    p.value.Str?
  }

  /** A payload that has the shape its interface documents. */
  predicate WellFormed(voc: DeviceEvents.Vocabulary, k: PayloadKind, p: StatePayload) {
    IsJson(p.value) && IsJson(p.position) &&
    match k
    case GarageDoorStatePayload => DoorState(voc, p)
    case GarageLightStatePayload => LightState(voc, p)
    case GarageRemoteControlLockStatePayload => LockStatePayload(p)
    case GarageOpeningsPayload => OpeningsState(p)
    case SecurityProtocolPayload => ProtocolState(p)
    case WifiSignalRssiPayload => RssiState(p)
    case WifiSignalPercentPayload => PercentState(p)
    case UptimePayload => UptimeState(p)
    case DeviceIdPayload => DeviceIdState(p)
    case IPAddressPayload => IPAddressState(p)
    case _ => OnOffState(voc, p)
  }

  /** The request parameter interfaces: PositionRequest, SecurityProtocolRequest and Empty. */
  datatype RequestKind = EmptyRequest | PositionRequest | SecurityProtocolRequest

  datatype RequestParams =
    | NoParams
    | PositionParams(position: real)
    | SecurityProtocolParams(option: Enums.SecurityProtocol)

  function KindOf(r: RequestParams): RequestKind {
    match r
    case NoParams => EmptyRequest
    case PositionParams(_) => PositionRequest
    case SecurityProtocolParams(_) => SecurityProtocolRequest
  }

  /** `Object.entries` of a parameter record: its fields in declaration order. */
  function Entries(r: RequestParams): (es: seq<(string, Value)>)
    ensures |es| <= 1
    ensures es == [] <==> KindOf(r) == EmptyRequest
    ensures KindOf(r) == PositionRequest ==> es == [("position", Num(r.position))]
    ensures KindOf(r) == SecurityProtocolRequest ==> es == [("option", Str(Enums.ProtocolText(r.option)))]
  {
    match r
    case NoParams => []
    case PositionParams(pos) => [("position", Num(pos))]
    case SecurityProtocolParams(o) => [("option", Str(Enums.ProtocolText(o)))]
  }
}
