# Konnected blaQ client protocol engine, in Dafny

This project models the `Api` class that a Homey app uses to talk to a Konnected blaQ
garage-door controller, together with the static tables it reads. The controller speaks the
ESPHome web-server protocol. The model covers four parts:

- **The connection state machine.** `connect` opens a server-sent-events source on
  `/events` and registers a connection-error listener and an open listener. The error
  listener counts errors while the source is CONNECTING, logs "Retrying...k of N", and
  after the ceiling closes the source and rejects the promise. A 401 rejects with
  `UnauthorizedError`. The open listener swaps in the `state` and `error` handlers and
  resolves. Module `Connection` holds these steps as transition functions on a `Link`
  record. Class `Client.Api` performs them in place on its fields, and each method's
  postcondition ties the new state to the matching function.
- **The state-update decoder** (`onStateUpdate`). A push message yields no event, a throw
  out of the handler, or exactly one typed event chosen by the payload's object id
  (module `StateUpdates`).
- **Requests and responses** (module `Requests`):
  - the HTTP Basic Authorization header (section 2 of RFC 7617);
  - the URLs `get` and `post` fetch;
  - the query string `post` accumulates in its loop (`Requests.BuildQuery`);
  - the status-code rules of `get` and `post`;
  - `verifyConnection`'s outcome mapping;
  - what the sixteen query methods and eighteen command methods ask for and return.
- **The tables**:
  - the 39 endpoint paths and the GET/POST parameter maps (`BlaqEndPoints`);
  - the switch and button mappings (`Switches`, `Buttons`);
  - the event taxonomy (`ApiEvents`, `Alarms`);
  - the payload records with the well-formedness condition each interface documents
    (`Payloads`).

The transport is an input. Errors, opens, push messages and HTTP responses arrive as
method parameters. Emitted events and issued requests are appended to the logs `emitted`
and `requests`. The runtime's base64 encoder, `encodeURIComponent`, number-to-text
conversion and JSON parser are the function values of a `Runtime.Library`. The strings of
`DeviceEvents`, `GarageDoorStates` and `OnOff` come from a `DeviceEvents.Vocabulary`. The
lemmas that need these strings to be pairwise distinct say so with `Distinct()`.

Some behaviours of the code are stated as they are:

- A 401 while connecting still falls through to the retry branch
  (`Connection.UnauthorizedAnyCount`).
- An error that closes the source before it opened, without a 401, leaves the promise
  pending forever (`Connection.FatalErrorLeavesPending`).
- A query answered with 401 throws its "No data returned" message
  (`Requests.UnauthorizedQueryThrows`).
- `verifyConnection`'s "Unexpected status code" throw cannot be reached, because `get`
  throws first (`Requests.VerifyOutcomes`).
- A colon in the username makes the receiver misread the credentials
  (`Requests.ColonInUsernameMisread`).

## Model

| member | source | states |
|---|---|---|
| Client.Api.constructor | lib/Konnected/Api.ts:44-76 | A new client has address "", port 80, empty credentials, no event source, nothing emitted or requested, and a valid connection state |
| Client.Api.SetUsername | lib/Konnected/Api.ts:59-61 | Only the username changes |
| Client.Api.SetPassword | lib/Konnected/Api.ts:68-70 | Only the password changes |
| Client.Api.Connect | lib/Konnected/Api.ts:93-117 | Takes the options' settings (keeps the old ones without options), closes the old source and records it as retired (every retired source is closed, so only the current one can still dispatch), issues one event-stream request to url + "/events" with the current Authorization header, and starts an attempt whose ceiling is `maxRetries`, or 5 when it is absent or 0; the state is valid afterwards |
| Client.Api.StartAttempt | lib/Konnected/Api.ts:107-147 | A fresh attempt: CONNECTING source, both pre-open listeners, retry count 0, pending promise, one stream request logged |
| Client.Api.OnError | lib/Konnected/Api.ts:120-170 | An error event does exactly what `Connection.OnTransportError` says to the source, listeners, counter and promise, and emits what it says; validity is preserved |
| Client.Api.ConnectionErrorListener | lib/Konnected/Api.ts:120-135 | The in-place listener equals `Connection.ConnectionErrorStep`: a 401 rejects a pending promise, then a CONNECTING source either counts and logs or closes and rejects |
| Client.Api.OnSteadyError | lib/Konnected/Api.ts:168-170 | Appends exactly one `error` event and changes nothing else |
| Client.Api.OnOpen | lib/Konnected/Api.ts:139-147 | The open event does exactly what `Connection.OnTransportOpen` says; validity is preserved |
| Client.Api.OnMessage | lib/Konnected/Api.ts:142-275 | A `state` message reaches the decoder only on an open source with the state listener; then the outcome is `StateUpdates.OnStateUpdate` and the decoded event, if any, is appended; otherwise nothing happens |
| Client.Api.Disconnect | lib/Konnected/Api.ts:157-161 | Closes the source if there is one, as `Connection.Disconnect`; validity is preserved |
| Client.Api.Get | lib/Konnected/Api.ts:604-624 | Issues one GET of url + path with the current Authorization header; the outcome is `Requests.GetOutcome` of the response |
| Client.Api.Post | lib/Konnected/Api.ts:636-661 | Issues one POST of url + path + "?" + the accumulated query, with the current Authorization header; the outcome is `Requests.PostOutcome` |
| Client.Api.RunQuery | lib/Konnected/Api.ts:277-497 | Each query GETs its endpoint once and returns `Requests.QueryResult` of the fetched outcome |
| Client.Api.RunCommand | lib/Konnected/Api.ts:287-513 | Each command POSTs once to its endpoint with its parameter record and returns `Requests.PostOutcome` |
| Client.Api.PressButton | lib/Konnected/Api.ts:523-532 | Every button has a mapping; the press posts exactly once to the mapped endpoint with no parameters |
| Client.Api.SetSwitchState | lib/Konnected/Api.ts:541-546 | Posts exactly once, to the switch's "on" endpoint when the state is true and to its "off" endpoint otherwise, with no parameters |
| Client.Api.VerifyConnection | lib/Konnected/Api.ts:560-583 | Issues the device-id GET with the given credentials, and the verdict is `Requests.Verify` of the response |
| Connection.Ceiling | lib/Konnected/Api.ts:94 | The ceiling is never 0: an absent value or 0 gives the default 5, and any other value (negative ones included) is kept |
| Connection.StartValid | lib/Konnected/Api.ts:107-147 | A new attempt with a non-zero ceiling starts in a valid state |
| Connection.StepsPreserveValid | lib/Konnected/Api.ts:93-170 | The initial state and a new attempt are valid, and error, open and disconnect steps keep the state valid |
| Connection.ClosedIsFinal | lib/Konnected/Api.ts:157-161 | A closed source is final: errors, opens and disconnect change nothing and emit nothing |
| Connection.SettledStays | lib/Konnected/Api.ts:120-146 | A settled promise keeps its outcome through every later step |
| Connection.NotConnectingChangesNothing | lib/Konnected/Api.ts:125 | Before opening, an error without a 401 that leaves the source not CONNECTING only records the new ready state |
| Connection.FatalErrorLeavesPending | lib/Konnected/Api.ts:121-134 | A non-401 error that closes the source before it opened leaves the promise pending, and no later event settles it |
| Connection.UnauthorizedAnyCount | lib/Konnected/Api.ts:121-134 | A 401 rejects a pending attempt with `UnauthorizedError` at any retry count; when the source is still CONNECTING the fall-through still counts and logs, or closes the source once the ceiling is reached |
| Connection.SteadyErrorsOnlyEmit | lib/Konnected/Api.ts:143-170 | Once open, an error emits one `error` event (message, or "An unknown error occurred." when empty) and leaves the promise, counter and listeners unchanged |
| Connection.OpenResolves | lib/Konnected/Api.ts:139-146 | Opening removes both pre-open listeners, adds the state and error handlers, resolves, and makes `state` messages delivered |
| Connection.RetriesCounted | lib/Konnected/Api.ts:125-128 | For k errors up to the ceiling, each while CONNECTING and without a 401, the counter is k, the log is "Retrying...1 of N" … "Retrying...k of N", and the attempt stays pending on a CONNECTING source |
| Connection.ExhaustedAttemptFails | lib/Konnected/Api.ts:129-133 | The error after the ceiling is used up closes the source, removes the connection-error listener and rejects with that error's message, logging nothing more |
| Connection.RetryBound | lib/Konnected/Api.ts:126-133 | Over any sequence of errors, the retry counter never exceeds the ceiling, equals it whenever the attempt gave up (only the opened listener left), and the state stays valid |
| Connection.OpenAfterRetries | lib/Konnected/Api.ts:126-146 | An open after at most N counted errors resolves the attempt with the steady listeners on an open source |
| Connection.DisconnectStrandsPending | lib/Konnected/Api.ts:157-161 | Disconnecting before the source opened closes it and leaves the promise pending for good |
| StateUpdates.OnStateUpdate | lib/Konnected/Api.ts:196-202 | Empty data yields no data; non-empty text that does not parse to an object makes the handler throw; otherwise the result is the decoded event |
| StateUpdates.Lookup | lib/Konnected/Api.ts:203-274 | The switch on `data.id` picks the first case whose id matches, and none exactly when no case matches |
| StateUpdates.UnknownIdNoEvent | lib/Konnected/Api.ts:272-273 | A payload yields no event exactly when its id names no device object |
| StateUpdates.KnownIdDecodes | lib/Konnected/Api.ts:203-271 | With distinct ids, each recognised id yields exactly the event of its own case |
| StateUpdates.DecodedEvents | lib/Konnected/Api.ts:204-262 | The door emits `(state == CLOSED, position)`; the light emits `state == ON`; the remote lock emits `state == LOCKED`; the device-id event carries `state`, not `value` |
| StateUpdates.DecodedEventKinds | lib/Konnected/Api.ts:203-274 | The decoder never emits `disconnected`, `error` or `log`; every event it emits has one argument, except the door's two |
| StateUpdates.EventNamesDistinct | lib/Konnected/Api.ts:204-270 | Distinct device objects are reported under distinct event names |
| StateUpdates.WellFormedConforms | lib/Konnected/Api.ts:203-271 | A payload of the documented shape yields an event whose arguments match its listener signature in IAllEvents |
| Requests.AuthorizationHeader | lib/Konnected/Api.ts:591-593 | The header is non-empty exactly when both username and password are non-empty, and then it is "Basic " followed by base64 of "username:password" |
| Requests.CredentialsRoundTrip | lib/Konnected/Api.ts:592 | Splitting the user-pass at its first colon gives back the username and the password, when the username has no colon |
| Requests.ColonInUsernameMisread | lib/Konnected/Api.ts:592 | With username "a:b" and password "c", the receiver reads username "a" and password "b:c" |
| Requests.BuildQuery | lib/Konnected/Api.ts:645-648 | The loop's result is the in-order concatenation of `key=enc(value)&` over the entries |
| Requests.PostUrlShape | lib/Konnected/Api.ts:650 | A POST without parameters goes to the GET URL of the path plus a bare "?"; one with a parameter ends in "&" |
| Requests.QueryRoundTrip | lib/Konnected/Api.ts:645-648 | Parsing the accumulated query string gives back every key with its encoded value, in order, when keys hold no "=" or "&" and encoded values hold no "&" |
| Requests.GetOutcome | lib/Konnected/Api.ts:615-623 | 401 returns no data; any other status but 200 throws its status text; 200 returns the parsed body (no data for null, a throw for non-JSON) |
| Requests.PostOutcome | lib/Konnected/Api.ts:652-660 | 200 and 401 return normally; any other status throws its status text |
| Requests.VerifyOutcomes | lib/Konnected/Api.ts:560-583 | 200 gives Success; 401 gives InvalidCredentials when both credentials were given, otherwise AuthenticationRequired; any other status throws the status text from inside `get` |
| Requests.QueryResult | lib/Konnected/Api.ts:277-497 | No data throws the query's "No data returned" message; data gives the query's answer; a throw from `get` passes through |
| Requests.QueryEndpoints | lib/Konnected/Api.ts:277-497 | Every query reads its own GET endpoint, and that endpoint returns the payload interface the decoder uses for the same object |
| Requests.UnauthorizedQueryThrows | lib/Konnected/Api.ts:615-616 | A 401 on a query's GET makes the query throw its no-data message |
| Requests.WifiQueriesShareMessage | lib/Konnected/Api.ts:443-461 | The RSSI and percentage queries throw the same no-data message |
| Requests.QueryAgreesWithStream | lib/Konnected/Api.ts:307-497 | For a well-formed payload, the light, lock, on/off, numeric and text queries answer what the push stream reports for the same object |
| Requests.DoorQueryOppositeOfStream | lib/Konnected/Api.ts:277-285 | For a well-formed door payload, the query (is it OPEN) and the stream (is it CLOSED) give opposite answers |
| Requests.DeviceIdQueryVersusStream | lib/Konnected/Api.ts:479-487 | The device-id query returns `value` and the stream `state`; they agree exactly when the two fields hold the same text |
| Requests.CommandsWellTyped | lib/Konnected/Api.ts:287-513 | Every command posts to a POST endpoint the parameter record that endpoint's type demands |
| BlaqEndPoints.PathsDistinct | lib/Konnected/Models/BlaqEndPoints.ts:5-54 | The 39 path strings are pairwise distinct |
| BlaqEndPoints.GetPostPartition | lib/Konnected/Models/BlaqEndPoints.ts:56-105 | Every endpoint is a key of exactly one of the GET map and the POST map |
| EndpointCounts.KeyCounts | lib/Konnected/Models/BlaqEndPoints.ts:56-105 | The GET map has 17 keys and the POST map 22, so with the partition they cover the 39 endpoints once each |
| BlaqEndPoints.OnlyTwoPostsTakeParameters | lib/Konnected/Models/BlaqEndPoints.ts:76-105 | Among POST endpoints, exactly `GarageDoorSet` takes a `PositionRequest` and exactly `SecurityProtocolSet` a `SecurityProtocolRequest`; every other takes `Empty` |
| BlaqEndPoints.ActionPathExtendsStatusPath | lib/Konnected/Models/BlaqEndPoints.ts:6-39 | Every non-button POST path is its component's GET status path plus "/" and an action verb |
| BlaqEndPoints.PressPathShape | lib/Konnected/Models/BlaqEndPoints.ts:48-53 | Every button endpoint is a POST endpoint of the form `/button/<name>/press` |
| Switches.NamesDistinctAndPrefixed | lib/Konnected/Models/Switches.ts:5-10 | Switch names are pairwise distinct and start with "switch-" |
| Switches.MappingTotal | lib/Konnected/Models/Switches.ts:22-31 | `SwitchMappings` has an entry for every switch |
| Switches.ActionsDistinct | lib/Konnected/Models/Switches.ts:22-31 | The eight on/off endpoints are pairwise distinct, each is a POST endpoint taking `Empty`, RemoteLock "on" is `LockLock` and Light "on" is `GarageLightTurnOn` |
| Buttons.NamesDistinctAndPrefixed | lib/Konnected/Models/Buttons.ts:5-12 | Button names are pairwise distinct and start with "button-" |
| Buttons.MappingTotal | lib/Konnected/Models/Buttons.ts:14-25 | `ButtonMappings` is total and injective, and every mapped endpoint is a `/press` POST endpoint taking `Empty` |
| Buttons.PressesAreMapped | lib/Konnected/Models/Buttons.ts:18-25 | Every press endpoint is the mapping of some button |
| ApiEvents.NamesDistinct | lib/Konnected/Models/ApiEvents.ts:7-19 | The eleven API event names are pairwise distinct |
| ApiEvents.NamesUnprefixed | lib/Konnected/Models/ApiEvents.ts:7-19 | No API event name starts with "switch-" or "alarm-" |
| ApiEvents.KeyInjective | lib/Konnected/Models/ApiEvents.ts:34 | The keys of IAllEvents (API, switch and alarm events) are injective, so the three key sets are disjoint |
| ApiEvents.DoorArguments | lib/Konnected/Models/ApiEvents.ts:26 | A door event conforms exactly when it carries a boolean and then a number |
| ApiEvents.OpeningsAndTextArguments | lib/Konnected/Models/ApiEvents.ts:22-30 | The openings listener takes a number or null; the device-id and IP-address listeners take a string |
| ApiEvents.DisconnectedArguments | lib/Konnected/Models/ApiEvents.ts:25 | The disconnected listener takes no argument; no modelled step emits it (`Connection.RunEmitsOnlyLogsAndErrors`, `StateUpdates.DecodedEventKinds`) |
| Connection.RunEmitsOnlyLogsAndErrors | lib/Konnected/Api.ts:120-170 | Over any sequence of transport errors, every event the connection steps emit is a `log` or an `error` event |
| ApiEvents.BooleanListeners | lib/Konnected/Models/Switches.ts:12-18 | Every switch listener, and likewise every alarm listener (Alarms.ts lines 11-17), receives exactly one boolean |
| ApiEvents.HelpersConform | lib/Konnected/Models/ApiEvents.ts:21-31 | The `error` and `log` events the client emits match their listener signatures |
| Alarms.NamesDistinctAndPrefixed | lib/Konnected/Models/Alarms.ts:3-9 | The five alarm names are pairwise distinct and start with "alarm-" |
| Payloads.Entries | lib/Konnected/Models/Payloads.ts:157-166 | `Empty` has no fields, `PositionRequest` only `position` and `SecurityProtocolRequest` only `option` |
| DeviceEvents.DecodeOrderComplete | lib/Konnected/Api.ts:203-271 | The decoder's case order lists every device object exactly once |

## Left out

- The event-source library's own reconnect timing and `fetch`, and the `Accept` header of `get` and `post`. Errors, opens, push messages and responses are method inputs.
- Base64 (section 4 of RFC 4648), `encodeURIComponent` (section 2.1 of RFC 3986), number-to-text conversion and `JSON.parse`/`Response.json()` are runtime calls. They are function values of `Runtime.Library`, not definitions.
- `TypedEmitter` dispatch to subscribers, asynchronous subscriber failures and Promise scheduling are not modelled. An `emit` appends to `emitted`, a fetch appends to `requests`, and a promise is a settle-once `Settlement`.
- Client.Api.Connect: the promise of a previous `connect` that a new `connect` replaces stays pending in the source; the model keeps only the latest attempt's promise.
- Client.Api.Connect: the source's `fetch` computes the Authorization header at each (re)connection; the model records the header once, when the stream request is issued.
- Requests.GetOutcome: a 200 body is modelled only as a parsed object or `null`. In the source, a body of `false`, `0` or `""` also fails each query's `if (!data)` test and throws its "No data returned" message (lib/Konnected/Api.ts:280, 310 and the other queries), and a number or array body is read for fields it does not have; neither case is modelled, so `Requests.QueryResult` says nothing about them.
- StateUpdates.OnStateUpdate: parsed JSON is an object with `id`, `state`, `value` and `position` fields, `null`, or not JSON. Other JSON values (numbers, arrays) and an object whose `id` is not a string are not modelled.
- DeviceEvents.ts, GarageDoorStates.ts, OnOff.ts, Errors.ts and GarageDoorOperations.ts are not part of this model. Their strings come from `DeviceEvents.Vocabulary`, and the lemmas require them to be pairwise distinct. The door payload's `current_operation` field is not read by the core and is not modelled.
- Connection.Ceiling: a NaN `maxRetries` is not modelled (maxRetries is an integer); a negative one is kept, as in the source.
- Client.Api.PressButton: the "Button mapping not found" branch (which emits an `error` event and posts nothing) is not modelled. The mapping is total over the six buttons (`Buttons.MappingTotal`), so the branch cannot be taken for a `Buttons` value.
- The switch and button mappings are keyed by the enum member rather than its string value; the member names are proved injective (`Switches.NamesDistinctAndPrefixed`, `Buttons.NamesDistinctAndPrefixed`), so the two are equivalent.
- BlaqEndPoints.GetPostPartition: the GET and POST maps are modelled by their key sets and the payload/parameter type of each key; TypeScript's type-level checks on them are not modelled.
- The Homey glue (drivers/KonnectedDevice.ts, drivers/blaq/device.ts, drivers/blaq/driver.ts, app.ts), the UI constants (drivers/blaq/Capabilities.ts, Constants.ts), the discovery record (drivers/DiscoveryResult.ts) and the re-export barrels are outside the protocol engine.
- The constant enums SecurityProtocols.ts and LockStates.ts are datatypes in module `Enums` with their string values; ApiVerificationResponses.ts is `Enums.Verification`, whose string values no modelled code compares; the ESPHomeEvents.ts channels the client subscribes to appear as the `Connection.Listener` datatype. None of them has behaviour to prove.
- Payload well-formedness (module `Payloads`) states what each interface documents, such as the on/off `value` being true exactly when the state is ON, openings being null exactly when the state is "NA", RSSI negative and percentage within 0 to 100. These are predicates that the lemmas assume, not facts the client checks.
