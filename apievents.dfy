/** lib/Konnected/Models/ApiEvents.ts: the names of the events the client emits, the argument
    list each listener receives (IApiEvents, SwitchEvents, AlarmEvents), and their union
    IAllEvents. */
module ApiEvents {
  import opened Values
  import opened Text
  import Switches
  import Alarms
  import Enums

  datatype ApiEvent =
    | Error
    | Openings
    | WifiStrength
    | DeviceId
    | Disconnected
    | SecurityProtocol
    | WifiPercentage
    | Uptime
    | IPAddress
    | Door
    | Log

  /** The enum member's string value. */
  function Name(e: ApiEvent): string {
    match e
    case Error => "error"
    case Openings => "openings"
    case WifiStrength => "wifi_strength"
    case DeviceId => "device_id"
    case Disconnected => "disconnected"
    case SecurityProtocol => "security_protocol"
    case WifiPercentage => "wifi_percentage"
    case Uptime => "uptime"
    case IPAddress => "ip_address"
    case Door => "door"
    case Log => "log"
  }

  /** A key of IAllEvents: an API event, a switch event or an alarm event. */
  datatype EventName =
    | Api(api: ApiEvent)
    | SwitchEvent(switch: Switches.Switch)
    | AlarmEvent(alarm: Alarms.Alarm)

  /** The string an emitter listens on. */
  function Key(n: EventName): string {
    match n
    case Api(e) => Name(e)
    case SwitchEvent(s) => Switches.Name(s)
    case AlarmEvent(a) => Alarms.Name(a)
  }

  /** The parameter types that occur in listener signatures. */
  datatype ArgType =
    | ErrorArg
    | NumberArg
    | NumberOrNullArg
    | StringArg
    | BooleanArg
    | SecurityProtocolArg

  /** The listener parameter list of every key of IAllEvents. */
  function Signature(n: EventName): seq<ArgType> {
    match n
    case Api(Error) => [ErrorArg]
    case Api(Openings) => [NumberOrNullArg]
    case Api(WifiStrength) => [NumberArg]
    case Api(DeviceId) => [StringArg]
    case Api(Disconnected) => []
    case Api(Door) => [BooleanArg, NumberArg]
    case Api(SecurityProtocol) => [SecurityProtocolArg]
    case Api(WifiPercentage) => [NumberArg]
    case Api(Uptime) => [NumberArg]
    case Api(IPAddress) => [StringArg]
    case Api(Log) => [StringArg]
    case SwitchEvent(_) => [BooleanArg]
    case AlarmEvent(_) => [BooleanArg]
  }

  predicate HasType(v: Value, t: ArgType) {
    match t
    case ErrorArg => v.ErrorObject?
    case NumberArg => v.Num?
    case NumberOrNullArg => v.Num? || v.Null?
    case StringArg => v.Str?
    case BooleanArg => v.Bool?
    case SecurityProtocolArg => v.Str? && Enums.IsProtocolText(v.s)
  }

  /** One `emit(name, ...args)` call. */
  datatype Event = Event(name: EventName, args: seq<Value>)

  /** The arguments match the listener signature of the event's name. */
  predicate Conforms(ev: Event) {
    var sig := Signature(ev.name);
    |ev.args| == |sig| && forall i :: 0 <= i < |sig| ==> HasType(ev.args[i], sig[i])
  }

  /** `emit(ApiEvents.Error, new Error(message))`. */
  function ErrorEvent(message: string): Event {
    Event(Api(Error), [ErrorObject(message)])
  }

  /** `emit(ApiEvents.Log, message)`. */
  function LogEvent(message: string): Event {
    Event(Api(Log), [Str(message)])
  }

  /** The eleven API event names are pairwise distinct (their lengths already differ). */
  lemma NamesDistinct(a: ApiEvent, b: ApiEvent)
    ensures Name(a) == Name(b) ==> a == b
  {
    assert |Name(a)| == |Name(b)| ==> a == b;
  }

  /** No API event name carries the `switch-` or `alarm-` prefix. */
  lemma NamesUnprefixed(a: ApiEvent)
    ensures !StartsWith(Name(a), "switch-") && !StartsWith(Name(a), "alarm-")
  {
    assert |Name(a)| >= 7 ==> Name(a)[1] != 'w';
    assert |Name(a)| >= 6 ==> Name(a)[0] != 'a';
  }

  /** The three key sets of IAllEvents are disjoint, and each is injective: distinct event
      names never share a key. */
  lemma {:induction false} KeyInjective(a: EventName, b: EventName)
    ensures Key(a) == Key(b) ==> a == b
  {
    if Key(a) == Key(b) {
      match a {
        case Api(x) =>
          NamesUnprefixed(x);
          match b {
            case Api(y) => NamesDistinct(x, y);
            case SwitchEvent(s) => Switches.NamesDistinctAndPrefixed(s, s);
            case AlarmEvent(m) => Alarms.NamesDistinctAndPrefixed(m, m);
          }
        case SwitchEvent(s) =>
          Switches.NamesDistinctAndPrefixed(s, s);
          match b {
            case Api(y) => NamesUnprefixed(y);
            case SwitchEvent(t) => Switches.NamesDistinctAndPrefixed(s, t);
            case AlarmEvent(m) => Alarms.NamesDistinctAndPrefixed(m, m);
          }
        case AlarmEvent(m) =>
          Alarms.NamesDistinctAndPrefixed(m, m);
          match b {
            case Api(y) => NamesUnprefixed(y);
            case SwitchEvent(s) => Switches.NamesDistinctAndPrefixed(s, s);
            case AlarmEvent(n) => Alarms.NamesDistinctAndPrefixed(m, n);
          }
      }
    }
  }

  /** The door listener receives `(isClosed: boolean, position: number)` in that order. */
  lemma DoorArguments(ev: Event)
    requires ev.name == Api(Door)
    ensures Conforms(ev) <==> |ev.args| == 2 && ev.args[0].Bool? && ev.args[1].Num?
  {
    if |ev.args| == 2 && ev.args[0].Bool? && ev.args[1].Num? {
      assert HasType(ev.args[0], BooleanArg) && HasType(ev.args[1], NumberArg);
    }
  }

  /** The openings listener also accepts null; the device-id and IP-address listeners
      take a string. */
  lemma OpeningsAndTextArguments(ev: Event)
    ensures ev.name == Api(Openings) ==>
      (Conforms(ev) <==> |ev.args| == 1 && (ev.args[0].Num? || ev.args[0].Null?))
    ensures ev.name in {Api(DeviceId), Api(IPAddress)} ==>
      (Conforms(ev) <==> |ev.args| == 1 && ev.args[0].Str?)
  {
  }

  /** The disconnected listener takes no argument. */
  lemma DisconnectedArguments(ev: Event)
    requires ev.name == Api(Disconnected)
    ensures Conforms(ev) <==> ev.args == []
  {
  }

  /** Every switch and every alarm has a listener, and it receives exactly one boolean. */
  lemma BooleanListeners(ev: Event)
    requires ev.name.SwitchEvent? || ev.name.AlarmEvent?
    ensures Conforms(ev) <==> |ev.args| == 1 && ev.args[0].Bool?
  {
  }

  /** The helpers build conforming events. */
  lemma HelpersConform(message: string)
    ensures Conforms(ErrorEvent(message)) && Conforms(LogEvent(message))
  {
  }
}
