/** The `Api` class of lib/Konnected/Api.ts: its connection settings, its event source and the
    connection closures' variables, the events it emits and the requests it issues. Each
    method performs in place one step that modules `Connection`, `StateUpdates` and
    `Requests` define as a function, and its postcondition ties the new state to that
    function. Responses from the device and events of the source come in as parameters. */
module Client {
  import opened Wrappers
  import opened Values
  import Runtime
  import DeviceEvents
  import Payloads
  import BlaqEndPoints
  import Switches
  import Buttons
  import ApiEvents
  import StateUpdates
  import Requests
  import Enums
  import Connection

  /** The options record of `connect`; an absent username or password is the empty string. */
  datatype ConnectOptions = ConnectOptions(ipAddress: string, port: int, username: string, password: string,
                                           maxRetries: Option<int>)

  class Api {
    /** The encoders and the JSON parser of the runtime. */
    const lib: Runtime.Library
    /** The string values of DeviceEvents, GarageDoorStates and OnOff. */
    const vocab: DeviceEvents.Vocabulary

    var ipAddress: string
    var port: int
    var username: string
    var password: string

    /** `_eventSource` and the listeners registered on it. */
    var handle: Connection.Handle
    var listeners: set<Connection.Listener>
    /** The variables of the latest `connect`'s closures, and its promise. */
    var retryCount: nat
    var maxRetries: int
    var result: Connection.Settlement

    /** Every event emitted so far, in order. */
    var emitted: seq<ApiEvents.Event>
    /** Every request issued so far, in order. */
    var requests: seq<Requests.HttpRequest>
    /** The sources a later `connect` replaced, in order. */
    var retired: seq<Connection.Handle>

    /** The connection settings. */
    function Settings(): (string, int, string, string)
      reads this`ipAddress, this`port, this`username, this`password
    {
      (ipAddress, port, username, password)
    }

    /** The connection state as the record module `Connection` works on. */
    function Link(): Connection.Link
      reads this`handle, this`listeners, this`retryCount, this`maxRetries, this`result
    {
      Connection.Link(handle, listeners, retryCount, maxRetries, result)
    }

    /** Every replaced source was closed, so the current one is the only one that can
        still dispatch events to the client. */
    ghost predicate RetiredClosed()
      reads this`retired
    {
      forall h :: h in retired ==> h == Connection.Source(Connection.Closed)
    }

    ghost predicate Valid()
      reads this`handle, this`listeners, this`retryCount, this`maxRetries, this`result, this`retired
    {
      Connection.Valid(Link()) && RetiredClosed()
    }

    /** The `url` getter. */
    function Url(): string
      reads this`ipAddress, this`port
    {
      Requests.BaseUrl(lib, ipAddress, port)
    }

    /** `getAuthorizationHeader` with the current credentials. */
    function Authorization(): string
      reads this`username, this`password
    {
      Requests.AuthorizationHeader(lib, username, password)
    }

    constructor(lib: Runtime.Library, vocab: DeviceEvents.Vocabulary)
      ensures this.lib == lib && this.vocab == vocab
      ensures Settings() == ("", 80, "", "")
      ensures Link() == Connection.Initial
      ensures emitted == [] && requests == [] && retired == []
      ensures Valid()
    {
      this.lib := lib;
      this.vocab := vocab;
      ipAddress := "";
      port := 80;
      username := "";
      password := "";
      handle := Connection.NoSource;
      listeners := {};
      retryCount := 0;
      maxRetries := Connection.DefaultMaxRetryCount;
      result := Connection.Pending;
      emitted := [];
      requests := [];
      retired := [];
    }

    /** The `username` setter. */
    method SetUsername(value: string)
      modifies this
      ensures Settings() == (old(ipAddress), old(port), value, old(password))
      ensures Link() == old(Link()) && emitted == old(emitted) && requests == old(requests) && retired == old(retired)
    {
      username := value;
    }

    /** The `password` setter. */
    method SetPassword(value: string)
      modifies this
      ensures Settings() == (old(ipAddress), old(port), old(username), value)
      ensures Link() == old(Link()) && emitted == old(emitted) && requests == old(requests) && retired == old(retired)
    {
      password := value;
    }

    /** `connect`: take the options' settings, close the previous source and retire it, open
        a new one on `/events` with the current credentials, and start a fresh attempt whose
        retry ceiling is the options' `maxRetries`, or 5 when that is absent or 0. */
    method Connect(options: Option<ConnectOptions>)
      requires Valid()
      modifies this
      ensures options.Some? ==>
        Settings() == (options.value.ipAddress, options.value.port, options.value.username, options.value.password)
      ensures options.None? ==> Settings() == old(Settings())
      ensures Link() == Connection.Start(Connection.Ceiling(if options.Some? then options.value.maxRetries else None))
      ensures requests == old(requests) + [Requests.HttpRequest(Requests.EventStream, Url() + "/events", Authorization())]
      ensures emitted == old(emitted)
      ensures retired == old(retired) + (if old(handle).Source? then [Connection.Source(Connection.Closed)] else [])
      ensures Valid()
    {
      var ceiling := Connection.Ceiling(if options.Some? then options.value.maxRetries else None);
      if options.Some? {
        ipAddress := options.value.ipAddress;
        port := options.value.port;
        username := options.value.username;
        password := options.value.password;
      }
      if handle.Source? {
        handle := Connection.Source(Connection.Closed);
        retired := retired + [handle];
      }
      StartAttempt(ceiling);
    }

    /** The body of the promise `connect` returns: a new source on `/events` fetched with the
        current credentials, both connection listeners, and a zero retry count. */
    method StartAttempt(ceiling: int)
      requires ceiling != 0 && RetiredClosed()
      modifies this
      ensures Link() == Connection.Start(ceiling) && Valid()
      ensures requests == old(requests) + [Requests.HttpRequest(Requests.EventStream, Url() + "/events", Authorization())]
      ensures Settings() == old(Settings()) && emitted == old(emitted) && retired == old(retired)
    {
      Connection.StartValid(ceiling);
      retryCount := 0;
      maxRetries := ceiling;
      result := Connection.Pending;
      handle := Connection.Source(Connection.Connecting);
      listeners := Connection.PreOpenListeners;
      requests := requests + [Requests.HttpRequest(Requests.EventStream, Url() + "/events", Authorization())];
    }

    /** The source dispatches an `error` event to whichever error listener it holds:
        `connectionErrorListener` before the source opened, `onError` after. */
    method OnError(e: Connection.TransportError)
      requires Valid()
      modifies this
      ensures Valid()
      ensures Link() == Connection.OnTransportError(lib, old(Link()), e).0
      ensures emitted == old(emitted) + Connection.OnTransportError(lib, old(Link()), e).1
      ensures Settings() == old(Settings()) && requests == old(requests) && retired == old(retired)
    {
      Connection.StepsPreserveValid(lib, Link(), e, None);
      if handle.NoSource? || handle.readyState == Connection.Closed {
        return;
      }
      handle := Connection.Source(e.readyState);
      if Connection.ConnectionErrorListener in listeners {
        ConnectionErrorListener(e);
      } else if Connection.ErrorListener in listeners {
        OnSteadyError(e);
      }
    }

    /** `connectionErrorListener`, run once the source took on the error's ready state. */
    method ConnectionErrorListener(e: Connection.TransportError)
      modifies this
      ensures Link() == Connection.ConnectionErrorStep(lib, old(Link()), e).0
      ensures emitted == old(emitted) + Connection.ConnectionErrorStep(lib, old(Link()), e).1
      ensures Settings() == old(Settings()) && requests == old(requests) && retired == old(retired)
    {
      if e.code == Some(401) && result.Pending? {
        result := Connection.Rejected(Connection.Unauthorized(e.message));
      }
      if handle == Connection.Source(Connection.Connecting) {
        if retryCount < maxRetries {
          retryCount := retryCount + 1;
          emitted := emitted + [ApiEvents.LogEvent(Connection.RetryMessage(lib, retryCount, maxRetries))];
        } else {
          listeners := listeners - {Connection.ConnectionErrorListener};
          handle := Connection.Source(Connection.Closed);
          if result.Pending? {
            result := Connection.Rejected(Connection.ConnectFailed(e.message));
          }
        }
      }
    }

    /** `onError`: emit the transport's message as an `error` event. */
    method OnSteadyError(e: Connection.TransportError)
      modifies this
      ensures emitted == old(emitted) + [Connection.SteadyErrorEvent(e)]
      ensures Link() == old(Link()) && Settings() == old(Settings()) && requests == old(requests) && retired == old(retired)
    {
      emitted := emitted + [Connection.SteadyErrorEvent(e)];
    }

    /** The source dispatches `open`: `connectionOpenedListener` swaps the listeners and
        resolves the attempt. */
    method OnOpen()
      requires Valid()
      modifies this
      ensures Valid()
      ensures Link() == Connection.OnTransportOpen(old(Link()))
      ensures Settings() == old(Settings()) && emitted == old(emitted) && requests == old(requests) && retired == old(retired)
    {
      Connection.StepsPreserveValid(lib, Link(), Connection.TransportError(None, "", Connection.Open), None);
      if handle.NoSource? || handle.readyState == Connection.Closed {
        return;
      }
      handle := Connection.Source(Connection.Open);
      if Connection.ConnectionOpenedListener in listeners {
        listeners := listeners - Connection.PreOpenListeners + Connection.SteadyListeners;
        if result.Pending? {
          result := Connection.Resolved;
        }
      }
    }

    /** The source dispatches a `state` message: it reaches `onStateUpdate` only once the
        state listener is registered on an open source. The outcome is `None` when the
        message is not delivered. */
    method OnMessage(data: string) returns (outcome: Option<StateUpdates.UpdateOutcome>)
      modifies this
      ensures Connection.Delivers(old(Link())) ==> outcome == Some(StateUpdates.OnStateUpdate(lib, vocab, data))
      ensures !Connection.Delivers(old(Link())) ==> outcome == None
      ensures emitted == old(emitted) +
        (if outcome.Some? && outcome.value.Handled? && outcome.value.event.Some? then [outcome.value.event.value] else [])
      ensures Link() == old(Link()) && Settings() == old(Settings()) && requests == old(requests) && retired == old(retired)
    {
      if handle != Connection.Source(Connection.Open) || Connection.StateListener !in listeners {
        return None;
      }
      if data == "" {
        return Some(StateUpdates.NoData);
      }
      var parsed := lib.parseJson(data);
      if !parsed.Payload? {
        return Some(StateUpdates.HandlerThrew);
      }
      var event := StateUpdates.Decode(vocab, parsed.payload);
      if event.Some? {
        emitted := emitted + [event.value];
      }
      outcome := Some(StateUpdates.Handled(event));
    }

    /** `disconnect`: close the source if there is one. */
    method Disconnect()
      requires Valid()
      modifies this
      ensures Valid()
      ensures Link() == Connection.Disconnect(old(Link()))
      ensures Settings() == old(Settings()) && emitted == old(emitted) && requests == old(requests) && retired == old(retired)
    {
      Connection.StepsPreserveValid(lib, Link(), Connection.TransportError(None, "", Connection.Open), None);
      if handle.Source? {
        handle := Connection.Source(Connection.Closed);
      }
    }

    /** `get`: one GET of endpoint `e` with the current credentials, answered by `response`. */
    method Get(e: BlaqEndPoints.Endpoint, response: Requests.HttpResponse)
      returns (fetched: Requests.Outcome<Option<Payloads.StatePayload>>)
      requires BlaqEndPoints.IsGet(e)
      modifies this
      ensures requests == old(requests) + [Requests.HttpRequest(Requests.Get, Requests.GetUrl(lib, ipAddress, port, e), Authorization())]
      ensures fetched == Requests.GetOutcome(response)
      ensures Settings() == old(Settings()) && Link() == old(Link()) && emitted == old(emitted) && retired == old(retired)
    {
      requests := requests + [Requests.HttpRequest(Requests.Get, Url() + BlaqEndPoints.Path(e), Authorization())];
      if response.status == 401 {
        return Requests.Returned(None);
      }
      if response.status != 200 {
        return Requests.Threw(response.statusText);
      }
      match response.body {
        case Payload(p) => fetched := Requests.Returned(Some(p));
        case JsonNull => fetched := Requests.Returned(None);
        case NotJson => fetched := Requests.InvalidJson;
      }
    }

    /** `post`: one POST of endpoint `e` with the parameter record its type demands, sent in
        the query string. */
    method Post(e: BlaqEndPoints.Endpoint, params: Payloads.RequestParams, response: Requests.HttpResponse)
      returns (posted: Requests.Outcome<()>)
      requires BlaqEndPoints.PostParams(e) == Some(Payloads.KindOf(params))
      modifies this
      ensures requests == old(requests) +
        [Requests.HttpRequest(Requests.Post, Requests.PostUrl(lib, ipAddress, port, e, params), Authorization())]
      ensures posted == Requests.PostOutcome(response)
      ensures Settings() == old(Settings()) && Link() == old(Link()) && emitted == old(emitted) && retired == old(retired)
    {
      var query := Requests.BuildQuery(lib, Payloads.Entries(params));
      requests := requests + [Requests.HttpRequest(Requests.Post, Url() + BlaqEndPoints.Path(e) + "?" + query, Authorization())];
      if response.status == 401 {
        return Requests.Returned(());
      }
      if response.status != 200 {
        return Requests.Threw(response.statusText);
      }
      posted := Requests.Returned(());
    }

    /** One of the sixteen query methods (`isGarageDoorOpen` … `getIpAddress`). */
    method RunQuery(q: Requests.Query, response: Requests.HttpResponse) returns (answer: Requests.Outcome<Value>)
      modifies this
      ensures requests == old(requests) +
        [Requests.HttpRequest(Requests.Get, Requests.GetUrl(lib, ipAddress, port, Requests.QueryEndpoint(q)), Authorization())]
      ensures answer == Requests.QueryResult(vocab, q, Requests.GetOutcome(response))
      ensures Settings() == old(Settings()) && Link() == old(Link()) && emitted == old(emitted) && retired == old(retired)
    {
      Requests.QueryEndpoints(q, q);
      var fetched := Get(Requests.QueryEndpoint(q), response);
      answer := Requests.QueryResult(vocab, q, fetched);
    }

    /** One of the eighteen command methods (`openGarageDoor` … `pressFactoryResetButton`). */
    method RunCommand(c: Requests.Command, response: Requests.HttpResponse) returns (done: Requests.Outcome<()>)
      modifies this
      ensures requests == old(requests) +
        [Requests.HttpRequest(Requests.Post,
                              Requests.PostUrl(lib, ipAddress, port, Requests.CommandEndpoint(c), Requests.CommandParams(c)),
                              Authorization())]
      ensures done == Requests.PostOutcome(response)
      ensures Settings() == old(Settings()) && Link() == old(Link()) && emitted == old(emitted) && retired == old(retired)
    {
      Requests.CommandsWellTyped(c);
      done := Post(Requests.CommandEndpoint(c), Requests.CommandParams(c), response);
    }

    /** `pressButton`: post to the button's mapped endpoint with no parameters. */
    method PressButton(button: Buttons.Button, response: Requests.HttpResponse) returns (done: Requests.Outcome<()>)
      modifies this
      ensures button in Buttons.ButtonMappings
      ensures requests == old(requests) +
        [Requests.HttpRequest(Requests.Post,
                              Requests.PostUrl(lib, ipAddress, port, Buttons.ButtonMappings[button], Payloads.NoParams),
                              Authorization())]
      ensures done == Requests.PostOutcome(response)
      ensures Settings() == old(Settings()) && Link() == old(Link()) && emitted == old(emitted) && retired == old(retired)
    {
      Buttons.MappingTotal(button, button);
      var endpoint := Buttons.ButtonMappings[button];
      done := Post(endpoint, Payloads.NoParams, response);
    }

    /** `setSwitchState`: post to the switch's "on" endpoint when `state` holds and to its
        "off" endpoint otherwise, with no parameters. */
    method SetSwitchState(sw: Switches.Switch, state: bool, response: Requests.HttpResponse)
      returns (done: Requests.Outcome<()>)
      modifies this
      ensures requests == old(requests) +
        [Requests.HttpRequest(Requests.Post, Requests.PostUrl(lib, ipAddress, port, Switches.Action(sw, state), Payloads.NoParams),
                              Authorization())]
      ensures done == Requests.PostOutcome(response)
      ensures Settings() == old(Settings()) && Link() == old(Link()) && emitted == old(emitted) && retired == old(retired)
    {
      Switches.MappingTotal(sw);
      var actions := Switches.SwitchMappings[sw];
      var action := if state then actions.on else actions.off;
      Switches.ActionsDistinct(sw, state, sw, state);
      done := Post(action, Payloads.NoParams, response);
    }

    /** `verifyConnection`: a throwaway client GETs the device id with the given settings;
        the outcome is read off the response's status. */
    static method VerifyConnection(lib: Runtime.Library, vocab: DeviceEvents.Vocabulary, ipAddress: string, port: int,
                                   username: string, password: string, response: Requests.HttpResponse)
      returns (verdict: Requests.Outcome<Enums.Verification>, request: Requests.HttpRequest)
      ensures request == Requests.VerifyRequest(lib, ipAddress, port, username, password)
      ensures verdict == Requests.Verify(lib, response, username, password)
    {
      var api := new Api(lib, vocab);
      api.ipAddress := ipAddress;
      api.port := port;
      api.username := username;
      api.password := password;
      var fetched := api.Get(BlaqEndPoints.DeviceId, response);
      request := api.requests[0];
      match fetched {
        case Threw(message) => verdict := Requests.Threw(message);
        case InvalidJson => verdict := Requests.InvalidJson;
        case Returned(_) =>
          if response.status == 200 {
            verdict := Requests.Returned(Enums.Success);
          } else if response.status == 401 {
            if username != "" && password != "" {
              verdict := Requests.Returned(Enums.InvalidCredentials);
            } else {
              verdict := Requests.Returned(Enums.AuthenticationRequired);
            }
          } else {
            verdict := Requests.Threw("Unexpected status code: " + lib.numberText(response.status as real));
          }
      }
    }
  }
}
