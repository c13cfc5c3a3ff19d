/** The request side of lib/Konnected/Api.ts: the Authorization header, the URLs `get` and
    `post` fetch, the query string `post` accumulates, the status-code rules of both,
    `verifyConnection`'s outcome mapping, and what the query and command methods ask for. */
module Requests {
  import opened Wrappers
  import opened Values
  import opened Text
  import Runtime
  import Payloads
  import BlaqEndPoints
  import DeviceEvents
  import Enums
  import StateUpdates

  // ---------------------------------------------------------------------------------------
  // Credentials

  /** The user-pass text the header encodes. */
  function Credentials(username: string, password: string): string {
    username + ":" + password
  }

  /** `getAuthorizationHeader`: HTTP Basic credentials (section 2 of RFC 7617) when the
      username and the password are both non-empty, and the empty string otherwise. */
  function AuthorizationHeader(lib: Runtime.Library, username: string, password: string): (h: string)
    ensures h != "" <==> username != "" && password != ""
    ensures h != "" ==> StartsWith(h, "Basic ") && h[6..] == lib.base64(Credentials(username, password))
  {
    if username != "" && password != "" then "Basic " + lib.base64(Credentials(username, password)) else ""
  }

  /** The receiver splits the user-pass at its first colon and gets both parts back, as long
      as the username has no colon (which section 2 of RFC 7617 forbids). */
  lemma CredentialsRoundTrip(username: string, password: string)
    requires ':' !in username
    ensures Split(Credentials(username, password), ':') == (username, password)
  {
    SplitJoin(username, password, ':');
  }

  /** The header builder does not reject a colon in the username: the receiver then reads a
      shorter username and a longer password. */
  lemma ColonInUsernameMisread()
    ensures Split(Credentials("a:b", "c"), ':') == ("a", "b:c")
  {
    assert Credentials("a:b", "c") == "a" + [':'] + "b:c";
    SplitJoin("a", "b:c", ':');
  }

  // ---------------------------------------------------------------------------------------
  // URLs and the query string

  /** The `url` getter. */
  function BaseUrl(lib: Runtime.Library, ipAddress: string, port: int): string {
    "http://" + ipAddress + ":" + lib.numberText(port as real)
  }

  /** The URL `get` fetches for endpoint `e`. */
  function GetUrl(lib: Runtime.Library, ipAddress: string, port: int, e: BlaqEndPoints.Endpoint): string {
    BaseUrl(lib, ipAddress, port) + BlaqEndPoints.Path(e)
  }

  /** JavaScript `String(v)`, which `encodeURIComponent` applies to its argument. */
  function ValueText(lib: Runtime.Library, v: Value): string {
    match v
    case Undefined => "undefined"
    case Null => "null"
    case Bool(b) => if b then "true" else "false"
    case Num(n) => lib.numberText(n)
    case Str(s) => s
    case ErrorObject(m) => if m == "" then "Error" else "Error: " + m
  }

  /** One `${key}=${encodeURIComponent(value)}&` step. */
  function Pair(lib: Runtime.Library, entry: (string, Value)): string {
    entry.0 + "=" + lib.encodeUriComponent(ValueText(lib, entry.1)) + "&"
  }

  /** The query string after the loop has consumed `entries`, in order. */
  function QueryString(lib: Runtime.Library, entries: seq<(string, Value)>): string {
    if entries == [] then ""
    else QueryString(lib, entries[..|entries| - 1]) + Pair(lib, entries[|entries| - 1])
  }

  /** The for-loop of `post` over `Object.entries(parameters)`. */
  method BuildQuery(lib: Runtime.Library, entries: seq<(string, Value)>) returns (query: string)
    ensures query == QueryString(lib, entries)
  {
    query := "";
    for i := 0 to |entries|
      invariant query == QueryString(lib, entries[..i])
    {
      assert entries[..i + 1][..i] == entries[..i];
      query := query + Pair(lib, entries[i]);
    }
    assert entries[..|entries|] == entries;
  }

  /** The URL `post` fetches for endpoint `e` with parameter record `params`. */
  function PostUrl(lib: Runtime.Library, ipAddress: string, port: int, e: BlaqEndPoints.Endpoint,
                   params: Payloads.RequestParams): string {
    GetUrl(lib, ipAddress, port, e) + "?" + QueryString(lib, Payloads.Entries(params))
  }

  /** A POST without parameters goes to the GET URL of its path followed by a bare `?`; one
      with a parameter ends in `&`. */
  lemma PostUrlShape(lib: Runtime.Library, ipAddress: string, port: int, e: BlaqEndPoints.Endpoint,
                     params: Payloads.RequestParams)
    ensures params == Payloads.NoParams ==> PostUrl(lib, ipAddress, port, e, params) == GetUrl(lib, ipAddress, port, e) + "?"
    ensures params != Payloads.NoParams ==> EndsWith(PostUrl(lib, ipAddress, port, e, params), "&")
    ensures StartsWith(PostUrl(lib, ipAddress, port, e, params), GetUrl(lib, ipAddress, port, e) + "?")
  {
    var prefix := GetUrl(lib, ipAddress, port, e) + "?";
    var url := PostUrl(lib, ipAddress, port, e, params);
    assert url[..|prefix|] == prefix;
    if params != Payloads.NoParams {
      var es := Payloads.Entries(params);
      assert QueryString(lib, es) == Pair(lib, es[0]);
      assert url[|url| - 1..] == "&";
    }
  }

  /** The decoded key/value pairs of a query string: split at each `&`, then at the first `=`. */
  function ParseQuery(q: string): seq<(string, string)>
    decreases |q|
  {
    if q == [] then []
    else
      var (pair, rest) := Split(q, '&');
      var (key, value) := Split(pair, '=');
      [(key, value)] + ParseQuery(rest)
  }

  /** What the query string carries for each entry: the key and the encoded value. */
  function Encoded(lib: Runtime.Library, entries: seq<(string, Value)>): seq<(string, string)> {
    if entries == [] then []
    else [(entries[0].0, lib.encodeUriComponent(ValueText(lib, entries[0].1)))] + Encoded(lib, entries[1..])
  }

  /** The query string read from the front: the first entry, then the rest. */
  lemma {:induction false} QueryFront(lib: Runtime.Library, entries: seq<(string, Value)>)
    requires entries != []
    ensures QueryString(lib, entries) == Pair(lib, entries[0]) + QueryString(lib, entries[1..])
    decreases |entries|
  {
    var n := |entries|;
    if n == 1 {
      assert entries[..0] == [] && entries[1..] == [];
    } else {
      var init := entries[..n - 1];
      QueryFront(lib, init);
      assert init[1..] == entries[1..][..n - 2];
      assert init[0] == entries[0];
      assert entries[1..][n - 2] == entries[n - 1];
    }
  }

  /** Parsing the accumulated query string gives back every key with its encoded value, in
      order, provided keys contain neither `=` nor `&` and encoded values contain no `&`
      (encodeURIComponent escapes both, per section 2.1 of RFC 3986). */
  lemma {:induction false} QueryRoundTrip(lib: Runtime.Library, entries: seq<(string, Value)>)
    requires forall i :: 0 <= i < |entries| ==>
      '=' !in entries[i].0 && '&' !in entries[i].0 && '&' !in lib.encodeUriComponent(ValueText(lib, entries[i].1))
    ensures ParseQuery(QueryString(lib, entries)) == Encoded(lib, entries)
    decreases |entries|
  {
    if entries != [] {
      QueryFront(lib, entries);
      var key := entries[0].0;
      var value := lib.encodeUriComponent(ValueText(lib, entries[0].1));
      var rest := QueryString(lib, entries[1..]);
      var pair := key + "=" + value;
      assert QueryString(lib, entries) == pair + ['&'] + rest;
      assert '&' !in pair;
      SplitJoin(pair, rest, '&');
      assert pair == key + ['='] + value;
      SplitJoin(key, value, '=');
      QueryRoundTrip(lib, entries[1..]);
    }
  }

  // ---------------------------------------------------------------------------------------
  // HTTP exchanges

  datatype Verb = Get | Post | EventStream

  /** A fetch the client issues: its method, its URL and its Authorization header. */
  datatype HttpRequest = HttpRequest(verb: Verb, url: string, authorization: string)

  /** The response the transport answers with: status, status text and the body as JSON. */
  datatype HttpResponse = HttpResponse(status: int, statusText: string, body: Payloads.Parsed)

  /** How an awaited call ends: it returns a value, throws an Error with a message, or throws
      because the response body is not JSON. */
  datatype Outcome<T> = Returned(value: T) | Threw(message: string) | InvalidJson

  /** `get`'s rules: 401 returns without data, any other status but 200 throws its status
      text, and 200 returns the parsed body (nothing when it is `null`). */
  function GetOutcome(r: HttpResponse): (o: Outcome<Option<Payloads.StatePayload>>)
    ensures r.status == 401 ==> o == Returned(None)
    ensures o.Threw? <==> r.status != 200 && r.status != 401
    ensures o.Threw? ==> o.message == r.statusText
    ensures o.InvalidJson? <==> r.status == 200 && r.body.NotJson?
    ensures o.Returned? && o.value.Some? <==> r.status == 200 && r.body.Payload?
    ensures o.Returned? && o.value.Some? ==> o.value.value == r.body.payload
  {
    if r.status == 401 then Returned(None)
    else if r.status != 200 then Threw(r.statusText)
    else
      match r.body
      case Payload(p) => Returned(Some(p))
      case JsonNull => Returned(None)
      case NotJson => InvalidJson
  }

  /** `post`'s rules: 401 returns as if it had worked, any other status but 200 throws its
      status text; the body is never read. */
  function PostOutcome(r: HttpResponse): (o: Outcome<()>)
    ensures o.Returned? <==> r.status == 200 || r.status == 401
    ensures !o.Returned? ==> o == Threw(r.statusText)
  {
    if r.status == 401 then Returned(())
    else if r.status != 200 then Threw(r.statusText)
    else Returned(())
  }

  // ---------------------------------------------------------------------------------------
  // verifyConnection

  /** The GET `verifyConnection` issues: the device id, with the given credentials. */
  function VerifyRequest(lib: Runtime.Library, ipAddress: string, port: int, username: string, password: string): HttpRequest {
    HttpRequest(Get, GetUrl(lib, ipAddress, port, BlaqEndPoints.DeviceId), AuthorizationHeader(lib, username, password))
  }

  /** `verifyConnection`'s outcome for the response to that GET; an absent username or
      password is the empty string. */
  function Verify(lib: Runtime.Library, r: HttpResponse, username: string, password: string): Outcome<Enums.Verification> {
    match GetOutcome(r)
    case Threw(m) => Threw(m)
    case InvalidJson => InvalidJson
    case Returned(_) =>
      if r.status == 200 then Returned(Enums.Success)
      else if r.status == 401 then
        if username != "" && password != "" then Returned(Enums.InvalidCredentials)
        else Returned(Enums.AuthenticationRequired)
      else Threw("Unexpected status code: " + lib.numberText(r.status as real))
  }

  /** 200 is Success (unless the body is not JSON); 401 is InvalidCredentials when both
      credentials were given and AuthenticationRequired otherwise; any other status throws
      the status text from inside `get`, so the "Unexpected status code" throw is never
      reached. */
  lemma VerifyOutcomes(lib: Runtime.Library, r: HttpResponse, username: string, password: string)
    ensures r.status == 200 && !r.body.NotJson? ==> Verify(lib, r, username, password) == Returned(Enums.Success)
    ensures r.status == 200 && r.body.NotJson? ==> Verify(lib, r, username, password) == InvalidJson
    ensures r.status == 401 ==>
      Verify(lib, r, username, password) ==
        Returned(if username != "" && password != "" then Enums.InvalidCredentials else Enums.AuthenticationRequired)
    ensures r.status != 200 && r.status != 401 ==> Verify(lib, r, username, password) == Threw(r.statusText)
  {
  }

  // ---------------------------------------------------------------------------------------
  // The query methods

  datatype Query =
    | IsGarageDoorOpen
    | IsGarageLightOn
    | IsRemoteLocked
    | IsMotionDetected
    | IsSynced
    | IsObstructionDetected
    | IsMotorRunning
    | IsWallButtonPressed
    | GetGarageOpenings
    | GetSecurityProtocol
    | IsLearnModeEnabled
    | GetWifiSignalRssi
    | GetWifiSignalPercent
    | GetUptime
    | GetDeviceId
    | GetIpAddress

  /** The endpoint each query reads. */
  function QueryEndpoint(q: Query): BlaqEndPoints.Endpoint {
    match q
    case IsGarageDoorOpen => BlaqEndPoints.GarageDoor
    case IsGarageLightOn => BlaqEndPoints.GarageLight
    case IsRemoteLocked => BlaqEndPoints.Lock
    case IsMotionDetected => BlaqEndPoints.MotionSensor
    case IsSynced => BlaqEndPoints.RollingCodeSynced
    case IsObstructionDetected => BlaqEndPoints.Obstruction
    case IsMotorRunning => BlaqEndPoints.MotorRunning
    case IsWallButtonPressed => BlaqEndPoints.WallButtonPressed
    case GetGarageOpenings => BlaqEndPoints.GarageOpenings
    case GetSecurityProtocol => BlaqEndPoints.SecurityProtocol
    case IsLearnModeEnabled => BlaqEndPoints.Learn
    case GetWifiSignalRssi => BlaqEndPoints.WifiSignalRssi
    case GetWifiSignalPercent => BlaqEndPoints.WifiSignalPercent
    case GetUptime => BlaqEndPoints.Uptime
    case GetDeviceId => BlaqEndPoints.DeviceId
    case GetIpAddress => BlaqEndPoints.IPAddress
  }

  /** The message each query throws when `get` returns no data. */
  function NoDataMessage(q: Query): string {
    match q
    case IsGarageDoorOpen => "Error fetching garage door state. No data returned."
    case IsGarageLightOn => "Error fetching garage light state. No data returned."
    case IsRemoteLocked => "Error fetching lock state. No data returned."
    case IsMotionDetected => "Error fetching motion sensor state. No data returned."
    case IsSynced => "Error fetching rolling code sync state. No data returned."
    case IsObstructionDetected => "Error fetching obstruction sensor state. No data returned."
    case IsMotorRunning => "Error fetching motor state. No data returned."
    case IsWallButtonPressed => "Error fetching wall button state. No data returned."
    case GetGarageOpenings => "Error fetching garage openings. No data returned."
    case GetSecurityProtocol => "Error fetching security protocol. No data returned."
    case IsLearnModeEnabled => "Error fetching learn mode state. No data returned."
    case GetWifiSignalRssi => "Error fetching wifi signal strength. No data returned."
    case GetWifiSignalPercent => "Error fetching wifi signal strength. No data returned."
    case GetUptime => "Error fetching uptime. No data returned."
    case GetDeviceId => "Error fetching device id. No data returned."
    case GetIpAddress => "Error fetching IP address. No data returned."
  }

  /** What each query returns from the payload it read. */
  function Answer(voc: DeviceEvents.Vocabulary, q: Query, p: Payloads.StatePayload): Value {
    match q
    case IsGarageDoorOpen => Bool(p.state == voc.doorOpen)
    case IsRemoteLocked => Bool(p.state == Enums.LockText(Enums.Locked))
    case IsGarageLightOn | IsMotionDetected | IsSynced | IsObstructionDetected | IsMotorRunning
       | IsWallButtonPressed | IsLearnModeEnabled => Bool(p.state == voc.on)
    case GetGarageOpenings | GetSecurityProtocol | GetWifiSignalRssi | GetWifiSignalPercent
       | GetUptime | GetDeviceId | GetIpAddress => p.value
  }

  /** A query's outcome given how its `get` ended: no data throws the query's message. */
  function QueryResult(voc: DeviceEvents.Vocabulary, q: Query, fetched: Outcome<Option<Payloads.StatePayload>>)
    : (o: Outcome<Value>)
    ensures fetched == Returned(None) ==> o == Threw(NoDataMessage(q))
    ensures fetched.Returned? && fetched.value.Some? ==> o == Returned(Answer(voc, q, fetched.value.value))
    ensures fetched.Threw? ==> o == Threw(fetched.message)
    ensures fetched.InvalidJson? ==> o.InvalidJson?
  {
    match fetched
    case Returned(None) => Threw(NoDataMessage(q))
    case Returned(Some(p)) => Returned(Answer(voc, q, p))
    case Threw(m) => Threw(m)
    case InvalidJson => InvalidJson
  }

  /** The device object whose payload each query reads. */
  function ObjectOf(q: Query): DeviceEvents.DeviceObject {
    match q
    case IsGarageDoorOpen => DeviceEvents.GarageDoorCover
    case IsGarageLightOn => DeviceEvents.GarageLight
    case IsRemoteLocked => DeviceEvents.RemoteLock
    case IsMotionDetected => DeviceEvents.MotionSensor
    case IsSynced => DeviceEvents.SyncedSensor
    case IsObstructionDetected => DeviceEvents.ObstructionSensor
    case IsMotorRunning => DeviceEvents.MotorSensor
    case IsWallButtonPressed => DeviceEvents.WallButtonSensor
    case GetGarageOpenings => DeviceEvents.GarageOpeningsSensor
    case GetSecurityProtocol => DeviceEvents.SecurityProtocolSelect
    case IsLearnModeEnabled => DeviceEvents.LearnSwitch
    case GetWifiSignalRssi => DeviceEvents.WifiSignalStrength
    case GetWifiSignalPercent => DeviceEvents.WifiSignalPercentage
    case GetUptime => DeviceEvents.UptimeSensor
    case GetDeviceId => DeviceEvents.DeviceId
    case GetIpAddress => DeviceEvents.IPAddressTextSensor
  }

  /** Every query reads a distinct GET endpoint, and the payload interface that endpoint
      returns is the one the push decoder casts the same object's messages to. */
  lemma QueryEndpoints(a: Query, b: Query)
    ensures BlaqEndPoints.GetPayload(QueryEndpoint(a)) == Some(StateUpdates.KindOf(ObjectOf(a)))
    ensures QueryEndpoint(a) == QueryEndpoint(b) ==> a == b
  {
  }

  /** A 401 on a query's GET is not reported as such: the query throws its no-data message. */
  lemma UnauthorizedQueryThrows(voc: DeviceEvents.Vocabulary, q: Query, r: HttpResponse)
    requires r.status == 401
    ensures QueryResult(voc, q, GetOutcome(r)) == Threw(NoDataMessage(q))
  {
  }

  /** The two Wi-Fi queries read different endpoints (`QueryEndpoints`) but throw the same
      no-data message, so a caller cannot tell from the message which of the two failed. */
  lemma WifiQueriesShareMessage()
    ensures NoDataMessage(GetWifiSignalRssi) == NoDataMessage(GetWifiSignalPercent)
  {
  }

  /** For a payload of the documented shape, a query answers what the push stream reports for
      the same object: the light and the lock always, the on/off sensors because their
      `value` is true exactly when the state is ON, the numeric and text readings because
      both pass `value` on. (The door and the device id are the next two lemmas.) */
  lemma QueryAgreesWithStream(voc: DeviceEvents.Vocabulary, q: Query, p: Payloads.StatePayload)
    requires voc.Distinct()
    requires q != IsGarageDoorOpen && q != GetDeviceId
    requires p.id == voc.objectId(ObjectOf(q))
    requires Payloads.WellFormed(voc, StateUpdates.KindOf(ObjectOf(q)), p)
    ensures StateUpdates.Decode(voc, p).Some?
    ensures StateUpdates.Decode(voc, p).value.args == [Answer(voc, q, p)]
  {
    StateUpdates.KnownIdDecodes(voc, ObjectOf(q), p);
    AnswerIsEventArgument(voc, q, p);
  }

  lemma AnswerIsEventArgument(voc: DeviceEvents.Vocabulary, q: Query, p: Payloads.StatePayload)
    requires q != IsGarageDoorOpen && q != GetDeviceId
    requires Payloads.WellFormed(voc, StateUpdates.KindOf(ObjectOf(q)), p)
    ensures StateUpdates.EventFor(voc, ObjectOf(q), p).args == [Answer(voc, q, p)]
  {
  }

  /** The door query asks whether the state is OPEN, the stream whether it is CLOSED; for a
      payload in one of those two states the answers are opposite. */
  lemma DoorQueryOppositeOfStream(voc: DeviceEvents.Vocabulary, p: Payloads.StatePayload)
    requires voc.Distinct()
    requires p.id == voc.objectId(DeviceEvents.GarageDoorCover)
    requires Payloads.WellFormed(voc, Payloads.GarageDoorStatePayload, p)
    ensures StateUpdates.Decode(voc, p).Some?
    ensures StateUpdates.Decode(voc, p).value.args[0] == Bool(!Answer(voc, IsGarageDoorOpen, p).b)
  {
    StateUpdates.KnownIdDecodes(voc, DeviceEvents.GarageDoorCover, p);
  }

  /** The device-id query returns `value` while the stream reports `state`: they agree
      exactly when the device sends the same text in both fields. */
  lemma DeviceIdQueryVersusStream(voc: DeviceEvents.Vocabulary, p: Payloads.StatePayload)
    requires voc.Distinct()
    requires p.id == voc.objectId(DeviceEvents.DeviceId)
    ensures StateUpdates.Decode(voc, p).Some?
    ensures StateUpdates.Decode(voc, p).value.args == [Answer(voc, GetDeviceId, p)] <==> p.value == Str(p.state)
  {
    StateUpdates.KnownIdDecodes(voc, DeviceEvents.DeviceId, p);
  }

  // ---------------------------------------------------------------------------------------
  // The command methods

  datatype Command =
    | OpenGarageDoor
    | CloseGarageDoor
    | StopGarageDoor
    | ToggleGarageDoor
    | SetGarageDoorPosition(position: real)
    | TurnOnGarageLight
    | TurnOffGarageLight
    | ToggleGarageLight
    | LockRemote
    | UnlockRemote
    | SetSecurityProtocol(protocol: Enums.SecurityProtocol)
    | TurnOnLearnMode
    | TurnOffLearnMode
    | ToggleLearnMode
    | PressPreCloseWarningButton
    | PressPlaySoundButton
    | PressRestartButton
    | PressFactoryResetButton

  /** The endpoint each command posts to. */
  function CommandEndpoint(c: Command): BlaqEndPoints.Endpoint {
    match c
    case OpenGarageDoor => BlaqEndPoints.GarageDoorOpen
    case CloseGarageDoor => BlaqEndPoints.GarageDoorClose
    case StopGarageDoor => BlaqEndPoints.GarageDoorStop
    case ToggleGarageDoor => BlaqEndPoints.GarageDoorToggle
    case SetGarageDoorPosition(_) => BlaqEndPoints.GarageDoorSet
    case TurnOnGarageLight => BlaqEndPoints.GarageLightTurnOn
    case TurnOffGarageLight => BlaqEndPoints.GarageLightTurnOff
    case ToggleGarageLight => BlaqEndPoints.GarageLightToggle
    case LockRemote => BlaqEndPoints.LockLock
    case UnlockRemote => BlaqEndPoints.LockUnlock
    case SetSecurityProtocol(_) => BlaqEndPoints.SecurityProtocolSet
    case TurnOnLearnMode => BlaqEndPoints.LearnOn
    case TurnOffLearnMode => BlaqEndPoints.LearnOff
    case ToggleLearnMode => BlaqEndPoints.LearnToggle
    case PressPreCloseWarningButton => BlaqEndPoints.PreCloseWarningPress
    case PressPlaySoundButton => BlaqEndPoints.PlaySoundPress
    case PressRestartButton => BlaqEndPoints.RestartPress
    case PressFactoryResetButton => BlaqEndPoints.FactoryResetPress
  }

  /** The parameter record each command posts. */
  function CommandParams(c: Command): Payloads.RequestParams {
    match c
    case SetGarageDoorPosition(position) => Payloads.PositionParams(position)
    case SetSecurityProtocol(protocol) => Payloads.SecurityProtocolParams(protocol)
    case _ => Payloads.NoParams
  }

  /** Every command posts to a POST endpoint the record that endpoint's parameter type
      demands: `post<T>(endpoint: T, parameters: BlaqPostEndPoints[T])`. */
  lemma CommandsWellTyped(c: Command)
    ensures BlaqEndPoints.PostParams(CommandEndpoint(c)) == Some(Payloads.KindOf(CommandParams(c)))
  {
  }
}
