/** The connection state machine of lib/Konnected/Api.ts: what `connect`, its two closures
    `connectionErrorListener` and `connectionOpenedListener`, `onError` and `disconnect` do to
    the event source, the retry counter and the promise `connect` returned, as transition
    functions on a `Link` record. The class `Client.Api` performs the same steps in place. */
module Connection {
  import opened Wrappers
  import Runtime
  import ApiEvents
  import Values

  /** `readyState` of an event source (section 9.2 of the WHATWG HTML Living Standard). */
  datatype ReadyState = Connecting | Open | Closed

  /** `_eventSource`: none yet, or a source in some ready state. */
  datatype Handle = NoSource | Source(readyState: ReadyState)

  /** The listeners the client registers on its source. */
  datatype Listener = ConnectionErrorListener | ConnectionOpenedListener | StateListener | ErrorListener

  /** Why the promise of `connect` was rejected: `UnauthorizedError` or a plain `Error`. */
  datatype ConnectError = Unauthorized(message: string) | ConnectFailed(message: string)

  /** The promise `connect` returned. */
  datatype Settlement = Pending | Resolved | Rejected(reason: ConnectError)

  /** An `error` event of the source: the HTTP status it carries (if any), its message, and
      the ready state the source has when it dispatches the event. */
  datatype TransportError = TransportError(code: Option<int>, message: string, readyState: ReadyState)

  /** The connection part of the client: the source, its listeners, the closure variables
      `retryCount` and `maxRetries`, and the promise of the latest `connect`. */
  datatype Link = Link(handle: Handle, listeners: set<Listener>, retryCount: nat, maxRetries: int, result: Settlement)

  const DefaultMaxRetryCount: int := 5

  /** `options?.maxRetries || DEFAULT_MAX_RETRY_COUNT`: no options, no value and 0 all give
      the default; any other value, negative ones included, is kept. */
  function Ceiling(maxRetries: Option<int>): (n: int)
    ensures n != 0
    ensures maxRetries.Some? && maxRetries.value != 0 ==> n == maxRetries.value
    ensures maxRetries == None || maxRetries == Some(0) ==> n == 5
  {
    if maxRetries.Some? && maxRetries.value != 0 then maxRetries.value else DefaultMaxRetryCount
  }

  /** How many connection errors are counted before giving up. */
  function Allowance(maxRetries: int): nat {
    if maxRetries < 0 then 0 else maxRetries
  }

  const PreOpenListeners: set<Listener> := {ConnectionErrorListener, ConnectionOpenedListener}
  const SteadyListeners: set<Listener> := {StateListener, ErrorListener}

  /** The first state of a client, before any `connect`. */
  const Initial: Link := Link(NoSource, {}, 0, DefaultMaxRetryCount, Pending)

  /** The state right after `connect` created its source. */
  function Start(maxRetries: int): Link {
    Link(Source(Connecting), PreOpenListeners, 0, maxRetries, Pending)
  }

  /** Resolving or rejecting a promise only has an effect while it is pending. */
  function Settle(s: Settlement, outcome: Settlement): Settlement {
    if s.Pending? then outcome else s
  }

  /** The log line of the `k`-th counted error. */
  function RetryMessage(lib: Runtime.Library, k: int, n: int): string {
    "Failed to connect to device. Retrying..." + lib.numberText(k as real) + " of " + lib.numberText(n as real)
  }

  /** The `error` event `onError` emits. */
  function SteadyErrorEvent(e: TransportError): ApiEvents.Event {
    ApiEvents.ErrorEvent(if e.message != "" then e.message else "An unknown error occurred.")
  }

  /** `connectionErrorListener`, run after the source took on the error's ready state. A 401
      rejects with `UnauthorizedError` and, with no `return` after it, goes on to the retry
      branch, which only acts while the source is CONNECTING. */
  function ConnectionErrorStep(lib: Runtime.Library, l: Link, e: TransportError): (Link, seq<ApiEvents.Event>) {
    var result := if e.code == Some(401) then Settle(l.result, Rejected(Unauthorized(e.message))) else l.result;
    if l.handle == Source(Connecting) then
      if l.retryCount < l.maxRetries then
        (l.(retryCount := l.retryCount + 1, result := result),
         [ApiEvents.LogEvent(RetryMessage(lib, l.retryCount + 1, l.maxRetries))])
      else
        (l.(listeners := l.listeners - {ConnectionErrorListener}, handle := Source(Closed),
            result := Settle(result, Rejected(ConnectFailed(e.message)))), [])
    else
      (l.(result := result), [])
  }

  /** The source dispatches an `error` event to whichever error listener it holds. A closed
      source, or no source, dispatches nothing. */
  function OnTransportError(lib: Runtime.Library, l: Link, e: TransportError): (Link, seq<ApiEvents.Event>) {
    if l.handle.NoSource? || l.handle.readyState == Closed then (l, [])
    else
      var l' := l.(handle := Source(e.readyState));
      if ConnectionErrorListener in l.listeners then ConnectionErrorStep(lib, l', e)
      else if ErrorListener in l.listeners then (l', [SteadyErrorEvent(e)])
      else (l', [])
  }

  /** The source dispatches `open`: `connectionOpenedListener` swaps the two pre-open
      listeners for the state and error handlers and resolves. */
  function OnTransportOpen(l: Link): Link {
    if l.handle.NoSource? || l.handle.readyState == Closed then l
    else
      var l' := l.(handle := Source(Open));
      if ConnectionOpenedListener in l.listeners then
        l'.(listeners := l.listeners - PreOpenListeners + SteadyListeners, result := Settle(l.result, Resolved))
      else l'
  }

  /** `disconnect`: close the source if there is one. */
  function Disconnect(l: Link): Link {
    if l.handle.Source? then l.(handle := Source(Closed)) else l
  }

  /** Whether a push message on the `state` channel reaches `onStateUpdate`. */
  predicate Delivers(l: Link) {
    l.handle == Source(Open) && StateListener in l.listeners
  }

  /** The states the steps above can reach: the listener set is one of the four the code
      produces, the retry counter stays within its allowance, and a closure that gave up
      left a closed source and a rejected promise. */
  predicate Valid(l: Link) {
    l.maxRetries != 0 &&
    l.retryCount <= Allowance(l.maxRetries) &&
    (l.handle.NoSource? <==> l.listeners == {}) &&
    (l.handle.NoSource? ==> l.retryCount == 0 && l.result == Pending) &&
    (l.listeners == {} || l.listeners == PreOpenListeners || l.listeners == SteadyListeners ||
     l.listeners == {ConnectionOpenedListener}) &&
    (l.listeners == {ConnectionOpenedListener} ==>
       l.handle == Source(Closed) && l.result.Rejected? && l.retryCount == Allowance(l.maxRetries)) &&
    (l.listeners == PreOpenListeners ==> !l.result.Resolved?) &&
    (l.listeners == SteadyListeners ==> !l.result.Pending?)
  }

  /** A new attempt starts in a valid state. */
  lemma StartValid(n: int)
    requires n != 0
    ensures Valid(Start(n))
  {
    assert PreOpenListeners != {} && PreOpenListeners != SteadyListeners by {
      assert ConnectionErrorListener in PreOpenListeners && ConnectionErrorListener !in SteadyListeners;
    }
  }

  /** Every step keeps the state valid. */
  lemma StepsPreserveValid(lib: Runtime.Library, l: Link, e: TransportError, maxRetries: Option<int>)
    requires Valid(l)
    ensures Valid(Initial) && Valid(Start(Ceiling(maxRetries)))
    ensures Valid(OnTransportError(lib, l, e).0)
    ensures Valid(OnTransportOpen(l))
    ensures Valid(Disconnect(l))
  {
    if l.handle.Source? && l.handle.readyState != Closed && ConnectionErrorListener in l.listeners {
      assert l.listeners == PreOpenListeners;
      assert l.listeners - {ConnectionErrorListener} == {ConnectionOpenedListener};
    }
    if l.handle.Source? && l.handle.readyState != Closed && ConnectionOpenedListener in l.listeners {
      assert l.listeners - PreOpenListeners + SteadyListeners == SteadyListeners;
    }
  }

  /** A closed source is final: no error or open event changes anything any more. */
  lemma ClosedIsFinal(lib: Runtime.Library, l: Link, e: TransportError)
    requires l.handle == Source(Closed)
    ensures OnTransportError(lib, l, e) == (l, [])
    ensures OnTransportOpen(l) == l
    ensures Disconnect(l) == l
  {
  }

  /** A settled promise stays settled with the same outcome. */
  lemma SettledStays(lib: Runtime.Library, l: Link, e: TransportError)
    requires !l.result.Pending?
    ensures OnTransportError(lib, l, e).0.result == l.result
    ensures OnTransportOpen(l).result == l.result
    ensures Disconnect(l).result == l.result
  {
  }

  /** Before the source opens, an error that leaves it anything but CONNECTING, without a
      401, only records the new ready state. */
  lemma NotConnectingChangesNothing(lib: Runtime.Library, l: Link, e: TransportError)
    requires l.handle == Source(Connecting) && l.listeners == PreOpenListeners
    requires e.readyState != Connecting && e.code != Some(401)
    ensures OnTransportError(lib, l, e) == (l.(handle := Source(e.readyState)), [])
  {
  }

  /** In particular an error that closes the source without a 401 leaves the promise pending
      for good: nothing further is dispatched. */
  lemma FatalErrorLeavesPending(lib: Runtime.Library, l: Link, e: TransportError, e': TransportError)
    requires l.handle == Source(Connecting) && l.listeners == PreOpenListeners && l.result == Pending
    requires e.readyState == Closed && e.code != Some(401)
    ensures OnTransportError(lib, l, e).0.result == Pending
    ensures OnTransportError(lib, OnTransportError(lib, l, e).0, e') == (OnTransportError(lib, l, e).0, [])
    ensures OnTransportOpen(OnTransportError(lib, l, e).0).result == Pending
  {
  }

  /** A 401 rejects a pending attempt with `UnauthorizedError`, whatever the retry count; the
      fall-through still counts and logs the error when the source is CONNECTING and
      retries remain. */
  lemma UnauthorizedAnyCount(lib: Runtime.Library, l: Link, e: TransportError)
    requires l.handle == Source(Connecting) && l.listeners == PreOpenListeners && l.result == Pending
    requires e.code == Some(401)
    ensures OnTransportError(lib, l, e).0.result == Rejected(Unauthorized(e.message))
    ensures e.readyState == Connecting && l.retryCount < l.maxRetries ==>
      OnTransportError(lib, l, e) ==
        (l.(retryCount := l.retryCount + 1, result := Rejected(Unauthorized(e.message))),
         [ApiEvents.LogEvent(RetryMessage(lib, l.retryCount + 1, l.maxRetries))])
    ensures e.readyState == Connecting && l.retryCount >= l.maxRetries ==>
      OnTransportError(lib, l, e).0.handle == Source(Closed)
  {
  }

  /** Once open, errors only emit one `error` event (with a default message when the
      transport gave none) and never touch the promise or the counter. */
  lemma SteadyErrorsOnlyEmit(lib: Runtime.Library, l: Link, e: TransportError)
    requires l.listeners == SteadyListeners && l.handle.Source? && l.handle.readyState != Closed
    ensures OnTransportError(lib, l, e) == (l.(handle := Source(e.readyState)), [SteadyErrorEvent(e)])
    ensures SteadyErrorEvent(e).args == [Values.ErrorObject(if e.message == "" then "An unknown error occurred." else e.message)]
  {
  }

  /** Opening swaps the listeners and resolves a pending attempt. */
  lemma OpenResolves(l: Link)
    requires l.listeners == PreOpenListeners && l.handle.Source? && l.handle.readyState != Closed
    ensures OnTransportOpen(l) == l.(handle := Source(Open), listeners := SteadyListeners, result := Settle(l.result, Resolved))
    ensures Delivers(OnTransportOpen(l)) && !OnTransportOpen(l).result.Pending?
  {
    assert PreOpenListeners - PreOpenListeners + SteadyListeners == SteadyListeners;
  }

  /** The transport errors in order, from state `l`: the final state and everything emitted. */
  function Run(lib: Runtime.Library, l: Link, errors: seq<TransportError>): (Link, seq<ApiEvents.Event>)
  {
    if errors == [] then (l, [])
    else
      var (l1, events1) := Run(lib, l, errors[..|errors| - 1]);
      var (l2, events2) := OnTransportError(lib, l1, errors[|errors| - 1]);
      (l2, events1 + events2)
  }

  /** Whatever errors the source dispatches, the connection steps emit only `log` and `error`
      events; in particular `disconnected` is never emitted by them. */
  lemma {:induction false} RunEmitsOnlyLogsAndErrors(lib: Runtime.Library, l: Link, errors: seq<TransportError>)
    ensures forall ev :: ev in Run(lib, l, errors).1 ==>
      ev.name == ApiEvents.Api(ApiEvents.Log) || ev.name == ApiEvents.Api(ApiEvents.Error)
  {
    if errors != [] {
      var front := errors[..|errors| - 1];
      RunEmitsOnlyLogsAndErrors(lib, l, front);
      assert Run(lib, l, errors).1 ==
        Run(lib, l, front).1 + OnTransportError(lib, Run(lib, l, front).0, errors[|errors| - 1]).1;
    }
  }

  /** A connection error the closure counts: no 401, source still CONNECTING. */
  predicate Retryable(e: TransportError) {
    e.readyState == Connecting && e.code != Some(401)
  }

  /** The log lines of the first `k` counted errors. */
  function RetryLog(lib: Runtime.Library, k: nat, n: int): seq<ApiEvents.Event> {
    if k == 0 then [] else RetryLog(lib, k - 1, n) + [ApiEvents.LogEvent(RetryMessage(lib, k, n))]
  }

  /** Up to the allowance, each CONNECTING error increments the counter and logs
      "Retrying...k of N"; the attempt stays pending on a CONNECTING source. */
  lemma {:induction false} RetriesCounted(lib: Runtime.Library, n: int, errors: seq<TransportError>)
    requires |errors| <= Allowance(n)
    requires forall i :: 0 <= i < |errors| ==> Retryable(errors[i])
    ensures Run(lib, Start(n), errors) == (Start(n).(retryCount := |errors|), RetryLog(lib, |errors|, n))
    decreases |errors|
  {
    if errors != [] {
      var init := errors[..|errors| - 1];
      assert forall i :: 0 <= i < |init| ==> init[i] == errors[i];
      RetriesCounted(lib, n, init);
    }
  }

  /** The error after the allowance is used up closes the source, drops the connection
      error listener and rejects with that error's message, without logging. */
  lemma {:induction false} ExhaustedAttemptFails(lib: Runtime.Library, n: int, errors: seq<TransportError>, e: TransportError)
    requires |errors| == Allowance(n)
    requires forall i :: 0 <= i < |errors| ==> Retryable(errors[i])
    requires Retryable(e)
    ensures Run(lib, Start(n), errors + [e]) ==
      (Link(Source(Closed), {ConnectionOpenedListener}, |errors|, n, Rejected(ConnectFailed(e.message))),
       RetryLog(lib, |errors|, n))
  {
    RetriesCounted(lib, n, errors);
    var all := errors + [e];
    assert all[..|all| - 1] == errors && all[|all| - 1] == e;
    var before := Start(n).(retryCount := |errors|);
    assert PreOpenListeners - {ConnectionErrorListener} == {ConnectionOpenedListener};
    assert OnTransportError(lib, before, e) ==
      (Link(Source(Closed), {ConnectionOpenedListener}, |errors|, n, Rejected(ConnectFailed(e.message))), []);
    assert RetryLog(lib, |errors|, n) + [] == RetryLog(lib, |errors|, n);
  }

  /** The counter never exceeds the allowance, and equals it when the attempt gave up. */
  lemma {:induction false} RetryBound(lib: Runtime.Library, l: Link, errors: seq<TransportError>)
    requires Valid(l)
    ensures Valid(Run(lib, l, errors).0)
    ensures Run(lib, l, errors).0.retryCount <= Allowance(l.maxRetries)
    ensures Run(lib, l, errors).0.maxRetries == l.maxRetries
    ensures Run(lib, l, errors).0.listeners == {ConnectionOpenedListener} ==>
      Run(lib, l, errors).0.retryCount == Allowance(l.maxRetries)
    decreases |errors|
  {
    if errors != [] {
      RetryBound(lib, l, errors[..|errors| - 1]);
      StepsPreserveValid(lib, Run(lib, l, errors[..|errors| - 1]).0, errors[|errors| - 1], None);
    }
  }

  /** An open after fewer errors than the allowance resolves the attempt, with every one of
      those errors counted and logged. */
  lemma OpenAfterRetries(lib: Runtime.Library, n: int, errors: seq<TransportError>)
    requires |errors| <= Allowance(n)
    requires forall i :: 0 <= i < |errors| ==> Retryable(errors[i])
    ensures OnTransportOpen(Run(lib, Start(n), errors).0) ==
      Link(Source(Open), SteadyListeners, |errors|, n, Resolved)
  {
    RetriesCounted(lib, n, errors);
    OpenResolves(Start(n).(retryCount := |errors|));
  }

  /** `disconnect` before the source opens closes it and strands the attempt: the promise
      stays pending, as nothing is dispatched any more. */
  lemma DisconnectStrandsPending(lib: Runtime.Library, l: Link, e: TransportError)
    requires l.handle.Source? && l.result == Pending
    ensures Disconnect(l).handle == Source(Closed) && Disconnect(l).result == Pending
    ensures OnTransportError(lib, Disconnect(l), e) == (Disconnect(l), [])
    ensures OnTransportOpen(Disconnect(l)) == Disconnect(l)
  {
  }
}
