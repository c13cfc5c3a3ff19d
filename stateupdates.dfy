/** `onStateUpdate` of lib/Konnected/Api.ts: a push message on the stream's `state` channel
    becomes at most one emitted event, chosen by the object id of its payload. */
module StateUpdates {
  import opened Wrappers
  import opened Values
  import DeviceEvents
  import Payloads
  import ApiEvents
  import Switches
  import Alarms
  import Enums
  import Runtime

  /** The payload interface each case of the switch casts the message to. */
  function KindOf(d: DeviceEvents.DeviceObject): Payloads.PayloadKind {
    match d
    case GarageDoorCover => Payloads.GarageDoorStatePayload
    case GarageLight => Payloads.GarageLightStatePayload
    case RemoteLock => Payloads.GarageRemoteControlLockStatePayload
    case MotionSensor => Payloads.MotionSensorStatePayload
    case SyncedSensor => Payloads.ProtocolSyncStatePayload
    case ObstructionSensor => Payloads.ObstructionStatePayload
    case MotorSensor => Payloads.GarageOpenerMotorStatePayload
    case WallButtonSensor => Payloads.WallButtonStatePayload
    case GarageOpeningsSensor => Payloads.GarageOpeningsPayload
    case SecurityProtocolSelect => Payloads.SecurityProtocolPayload
    case LearnSwitch => Payloads.LearnModeStatePayload
    case WifiSignalStrength => Payloads.WifiSignalRssiPayload
    case WifiSignalPercentage => Payloads.WifiSignalPercentPayload
    case UptimeSensor => Payloads.UptimePayload
    case DeviceId => Payloads.DeviceIdPayload
    case IPAddressTextSensor => Payloads.IPAddressPayload
    case ToggleOnlySwitch => Payloads.ToggleOnlyPayload
  }

  /** The `emit` call of the case for object `d`. */
  function EventFor(voc: DeviceEvents.Vocabulary, d: DeviceEvents.DeviceObject, p: Payloads.StatePayload): ApiEvents.Event {
    match d
    case GarageDoorCover =>
      ApiEvents.Event(ApiEvents.Api(ApiEvents.Door), [Bool(p.state == voc.doorClosed), p.position])
    case GarageLight => ApiEvents.Event(ApiEvents.SwitchEvent(Switches.Light), [Bool(p.state == voc.on)])
    case RemoteLock =>
      ApiEvents.Event(ApiEvents.SwitchEvent(Switches.RemoteLock), [Bool(p.state == Enums.LockText(Enums.Locked))])
    case MotionSensor => ApiEvents.Event(ApiEvents.AlarmEvent(Alarms.MotionDetected), [p.value])
    case SyncedSensor => ApiEvents.Event(ApiEvents.AlarmEvent(Alarms.Synced), [p.value])
    case ObstructionSensor => ApiEvents.Event(ApiEvents.AlarmEvent(Alarms.ObstructionDetected), [p.value])
    case MotorSensor => ApiEvents.Event(ApiEvents.AlarmEvent(Alarms.Motor), [p.value])
    case WallButtonSensor => ApiEvents.Event(ApiEvents.AlarmEvent(Alarms.WallButtonPressed), [p.value])
    case GarageOpeningsSensor => ApiEvents.Event(ApiEvents.Api(ApiEvents.Openings), [p.value])
    case SecurityProtocolSelect => ApiEvents.Event(ApiEvents.Api(ApiEvents.SecurityProtocol), [p.value])
    case LearnSwitch => ApiEvents.Event(ApiEvents.SwitchEvent(Switches.Learn), [p.value])
    case WifiSignalStrength => ApiEvents.Event(ApiEvents.Api(ApiEvents.WifiStrength), [p.value])
    case WifiSignalPercentage => ApiEvents.Event(ApiEvents.Api(ApiEvents.WifiPercentage), [p.value])
    case UptimeSensor => ApiEvents.Event(ApiEvents.Api(ApiEvents.Uptime), [p.value])
    case DeviceId => ApiEvents.Event(ApiEvents.Api(ApiEvents.DeviceId), [Str(p.state)])
    case IPAddressTextSensor => ApiEvents.Event(ApiEvents.Api(ApiEvents.IPAddress), [p.value])
    case ToggleOnlySwitch => ApiEvents.Event(ApiEvents.SwitchEvent(Switches.ToggleOnly), [p.value])
  }

  /** The `switch (data.id)`: the first object, in case order, whose id is `id`. */
  function Lookup(voc: DeviceEvents.Vocabulary, id: string, order: seq<DeviceEvents.DeviceObject>)
    : (r: Option<DeviceEvents.DeviceObject>)
    ensures r.Some? ==> r.value in order && voc.objectId(r.value) == id
    ensures r.None? <==> forall i :: 0 <= i < |order| ==> voc.objectId(order[i]) != id
    ensures r.Some? ==> exists k :: 0 <= k < |order| && order[k] == r.value &&
                                    forall i :: 0 <= i < k ==> voc.objectId(order[i]) != id
  {
    if order == [] then None
    else if voc.objectId(order[0]) == id then
      Some(order[0])
    else
      var r := Lookup(voc, id, order[1..]);
      assert r.Some? ==> exists k :: 0 <= k < |order| && order[k] == r.value &&
                                    forall i :: 0 <= i < k ==> voc.objectId(order[i]) != id by {
        if r.Some? {
          var k :| 0 <= k < |order[1..]| && order[1..][k] == r.value &&
                   forall i :: 0 <= i < k ==> voc.objectId(order[1..][i]) != id;
          assert order[k + 1] == r.value;
          assert forall i :: 0 <= i < k + 1 ==> voc.objectId(order[i]) != id by {
            forall i | 0 <= i < k + 1 ensures voc.objectId(order[i]) != id {
              if i > 0 { assert order[i] == order[1..][i - 1]; }
            }
          }
        }
      }
      r
  }

  /** The event emitted for a parsed payload, if its id is one the switch names. */
  function Decode(voc: DeviceEvents.Vocabulary, p: Payloads.StatePayload): Option<ApiEvents.Event> {
    match Lookup(voc, p.id, DeviceEvents.DecodeOrder)
    case Some(d) => Some(EventFor(voc, d, p))
    case None => None
  }

  /** What handling one push message does: nothing for an empty message, a throw out of the
      handler when the text is not JSON or is `null`, otherwise at most one event. */
  datatype UpdateOutcome = NoData | HandlerThrew | Handled(event: Option<ApiEvents.Event>)

  function OnStateUpdate(lib: Runtime.Library, voc: DeviceEvents.Vocabulary, data: string): (r: UpdateOutcome)
    ensures r.NoData? <==> data == ""
    ensures r.HandlerThrew? <==> data != "" && !lib.parseJson(data).Payload?
    ensures r.Handled? ==> r.event == Decode(voc, lib.parseJson(data).payload)
  {
    if data == "" then NoData
    else
      match lib.parseJson(data)
      case Payload(p) => Handled(Decode(voc, p))
      case JsonNull => HandlerThrew
      case NotJson => HandlerThrew
  }

  /** A payload whose id names no device object yields no event, and only such a payload. */
  lemma UnknownIdNoEvent(voc: DeviceEvents.Vocabulary, p: Payloads.StatePayload)
    ensures Decode(voc, p).None? <==> forall d :: voc.objectId(d) != p.id
  {
    if Decode(voc, p).None? {
      forall d ensures voc.objectId(d) != p.id {
        DeviceEvents.DecodeOrderComplete(d);
        var i :| 0 <= i < |DeviceEvents.DecodeOrder| && DeviceEvents.DecodeOrder[i] == d;
      }
    }
  }

  /** With distinct ids, a payload of object `d` yields exactly the event of `d`'s case. */
  lemma KnownIdDecodes(voc: DeviceEvents.Vocabulary, d: DeviceEvents.DeviceObject, p: Payloads.StatePayload)
    requires voc.Distinct() && p.id == voc.objectId(d)
    ensures Decode(voc, p) == Some(EventFor(voc, d, p))
  {
    UnknownIdNoEvent(voc, p);
  }

  /** The door reports whether its state is CLOSED, then the position; the light whether it
      is ON; the remote lock whether it is LOCKED; the device id event carries `state`. */
  lemma DecodedEvents(voc: DeviceEvents.Vocabulary, d: DeviceEvents.DeviceObject, p: Payloads.StatePayload)
    requires voc.Distinct() && p.id == voc.objectId(d)
    ensures d == DeviceEvents.GarageDoorCover ==>
      Decode(voc, p) == Some(ApiEvents.Event(ApiEvents.Api(ApiEvents.Door), [Bool(p.state == voc.doorClosed), p.position]))
    ensures d == DeviceEvents.GarageLight ==>
      Decode(voc, p) == Some(ApiEvents.Event(ApiEvents.SwitchEvent(Switches.Light), [Bool(p.state == voc.on)]))
    ensures d == DeviceEvents.RemoteLock ==>
      Decode(voc, p) == Some(ApiEvents.Event(ApiEvents.SwitchEvent(Switches.RemoteLock), [Bool(p.state == "LOCKED")]))
    ensures d == DeviceEvents.DeviceId ==>
      Decode(voc, p) == Some(ApiEvents.Event(ApiEvents.Api(ApiEvents.DeviceId), [Str(p.state)]))
  {
    KnownIdDecodes(voc, d, p);
  }

  /** The decoder never emits `disconnected`, `error` or `log`; every event it emits has one
      argument, except the door's two. */
  lemma DecodedEventKinds(voc: DeviceEvents.Vocabulary, p: Payloads.StatePayload)
    ensures Decode(voc, p).Some? ==>
      Decode(voc, p).value.name !in {ApiEvents.Api(ApiEvents.Disconnected), ApiEvents.Api(ApiEvents.Error), ApiEvents.Api(ApiEvents.Log)}
    ensures Decode(voc, p).Some? ==>
      |Decode(voc, p).value.args| == if Decode(voc, p).value.name == ApiEvents.Api(ApiEvents.Door) then 2 else 1
  {
    var found := Lookup(voc, p.id, DeviceEvents.DecodeOrder);
    if found.Some? {
      EventKinds(voc, found.value, p);
    }
  }

  lemma EventKinds(voc: DeviceEvents.Vocabulary, d: DeviceEvents.DeviceObject, p: Payloads.StatePayload)
    ensures EventFor(voc, d, p).name !in {ApiEvents.Api(ApiEvents.Disconnected), ApiEvents.Api(ApiEvents.Error), ApiEvents.Api(ApiEvents.Log)}
    ensures |EventFor(voc, d, p).args| == if EventFor(voc, d, p).name == ApiEvents.Api(ApiEvents.Door) then 2 else 1
  {
  }

  /** Distinct device objects are reported under distinct event names. */
  lemma EventNamesDistinct(voc: DeviceEvents.Vocabulary, a: DeviceEvents.DeviceObject, b: DeviceEvents.DeviceObject,
                           p: Payloads.StatePayload, q: Payloads.StatePayload)
    ensures EventFor(voc, a, p).name == EventFor(voc, b, q).name ==> a == b
  {
  }

  /** A payload that has the shape its interface documents produces an event whose arguments
      match the listener signature of IAllEvents. */
  lemma WellFormedConforms(voc: DeviceEvents.Vocabulary, d: DeviceEvents.DeviceObject, p: Payloads.StatePayload)
    requires voc.Distinct() && p.id == voc.objectId(d)
    requires Payloads.WellFormed(voc, KindOf(d), p)
    ensures Decode(voc, p).Some? && ApiEvents.Conforms(Decode(voc, p).value)
  {
    KnownIdDecodes(voc, d, p);
    EventConforms(voc, d, p);
  }

  lemma EventConforms(voc: DeviceEvents.Vocabulary, d: DeviceEvents.DeviceObject, p: Payloads.StatePayload)
    requires Payloads.WellFormed(voc, KindOf(d), p)
    ensures ApiEvents.Conforms(EventFor(voc, d, p))
  {
    var ev := EventFor(voc, d, p);
    if d == DeviceEvents.GarageDoorCover {
      ApiEvents.DoorArguments(ev);
    } else if ev.name.SwitchEvent? || ev.name.AlarmEvent? {
      ApiEvents.BooleanListeners(ev);
    } else {
      ApiEvents.OpeningsAndTextArguments(ev);
      assert ApiEvents.HasType(ev.args[0], ApiEvents.Signature(ev.name)[0]);
    }
  }
}
