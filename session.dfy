/** The order of events in `start_server`: handler registration, the
    `initialize`/`initialized` handshake, the hand-over to the caller, and the
    shutdown that follows. The server's replies and the caller's body are inputs. */
module Session {
  import opened Wrappers
  import opened Json
  import opened InitParams

  /** The notifications `start_server` installs a handler for. */
  datatype Notification = WindowLogMessage | Progress | PublishDiagnostics {
    /** The LSP method name the handler is registered under. */
    function Method(): string {
      match this
      case WindowLogMessage => "window/logMessage"
      case Progress => "$/progress"
      case PublishDiagnostics => "textDocument/publishDiagnostics"
    }
  }

  const CAPABILITIES := "capabilities"
  /** The bound passed to `asyncio.wait_for` around `shutdown()`. */
  const SHUTDOWN_TIMEOUT := 5

  datatype Event =
    | Register(notification: Notification)     // `server.on_notification(notification.Method(), ...)`
    | EnterBase                                // the base class's `start_server` context is entered
    | StartProcess                             // `server.start()`
    | SendInitialize(params: map<string, Json>)
    | NotifyInitialized                        // `server.notify.initialized({})`
    | CompletionsAvailable                     // `completions_available.set()`
    | Yield                                    // the session is handed to the caller
    | RequestShutdown(timeout: int)            // `wait_for(server.shutdown(), timeout)`
    | WarnShutdownTimeout                      // the warning logged on `TimeoutError`
    | Stop                                     // `server.stop()`
    | ExitBase                                 // the base class's context is left

  /** How the `shutdown` request ends. */
  datatype ShutdownOutcome = ShutdownReturned | ShutdownTimedOut | ShutdownRaised

  /** Why `start_server` raises. */
  datatype StartError =
    | ParamsFailed(cause: PyException)   // `_get_initialize_params` raised
    | MissingCapabilities                // the RuntimeError for a reply without `capabilities`
    | CapabilitiesNotObject              // `capabilities.keys()` on a value that is not a dict
    | BodyRaised                         // the caller's body raised at the `yield`
    | ShutdownFailed                     // `shutdown()` raised something other than a timeout

  const HANDLERS: seq<Event> := [Register(WindowLogMessage), Register(Progress), Register(PublishDiagnostics)]

  /** The reply allows the handshake to complete. */
  predicate AcceptedReply(reply: map<string, Json>) {
    CAPABILITIES in reply && reply[CAPABILITIES].JObj?
  }

  /** The events of one run and how it ends. */
  datatype Run = Run(events: seq<Event>, outcome: Result<(), StartError>)

  /** `e` occurs in `events` exactly once, at index `i`. */
  predicate OnceAt(events: seq<Event>, i: int, e: Event) {
    0 <= i < |events| && events[i] == e && e !in events[..i] && e !in events[i + 1..]
  }

  /** What follows the hand-over to the caller. A body that raised skips the
      rest of the block (the `yield` is not inside the `try`); otherwise shutdown
      is requested, a timeout is logged as a warning, and `stop` runs in the
      `finally`. The base context is left last either way. */
  function AfterYield(bodyRaises: bool, shutdown: ShutdownOutcome): (r: seq<Event>)
    ensures NotifyInitialized !in r && CompletionsAvailable !in r && Yield !in r
    ensures OnceAt(r, |r| - 1, ExitBase)
  {
    if bodyRaises then
      OnceAtLast([], ExitBase);
      [ExitBase]
    else
      var teardown := [RequestShutdown(SHUTDOWN_TIMEOUT)] + ShutdownWarnings(shutdown) + [Stop];
      OnceAtLast(teardown, ExitBase);
      teardown + [ExitBase]
  }

  /** The warning logged when the shutdown request times out. */
  function ShutdownWarnings(shutdown: ShutdownOutcome): (r: seq<Event>)
    ensures r == [] || r == [WarnShutdownTimeout]
  {
    if shutdown == ShutdownTimedOut then [WarnShutdownTimeout] else []
  }

  /** What `start_server` does, given what `_get_initialize_params` returned or
      raised, the server's reply to `initialize`, whether the caller's body
      raised, and how the shutdown request ended. */
  function StartTrace(params: Result<map<string, Json>, PyException>, reply: map<string, Json>,
                      bodyRaises: bool, shutdown: ShutdownOutcome): Run
  {
    var started := HANDLERS + [EnterBase, StartProcess];
    match params
    case Failure(e) => Run(started + [ExitBase], Failure(ParamsFailed(e)))
    case Success(p) =>
      var sent := started + [SendInitialize(p)];
      if CAPABILITIES !in reply then Run(sent + [ExitBase], Failure(MissingCapabilities))
      else if !reply[CAPABILITIES].JObj? then Run(sent + [ExitBase], Failure(CapabilitiesNotObject))
      else
        Run(sent + [NotifyInitialized, CompletionsAvailable, Yield] + AfterYield(bodyRaises, shutdown),
            if bodyRaises then Failure(BodyRaised)
            else if shutdown == ShutdownRaised then Failure(ShutdownFailed)
            else Success(()))
  }

  /** `start_server` run to the end of its context, step by step. */
  method StartServer(template: map<string, Json>, root: string, pid: int, asUri: string -> Option<string>,
                     reply: map<string, Json>, bodyRaises: bool, shutdown: ShutdownOutcome)
    returns (events: seq<Event>, outcome: Result<(), StartError>)
    ensures Run(events, outcome) == StartTrace(InitializeParams(template, root, pid, asUri), reply, bodyRaises, shutdown)
  {
    events := HANDLERS;
    events := events + [EnterBase, StartProcess];
    var params := GetInitializeParams(template, root, pid, asUri);
    if params.Failure? {
      events := events + [ExitBase];
      outcome := Failure(ParamsFailed(params.error));
      return;
    }
    events := events + [SendInitialize(params.value)];
    if CAPABILITIES !in reply {
      events := events + [ExitBase];
      outcome := Failure(MissingCapabilities);
      return;
    }
    if !reply[CAPABILITIES].JObj? {
      events := events + [ExitBase];
      outcome := Failure(CapabilitiesNotObject);
      return;
    }
    events := events + [NotifyInitialized, CompletionsAvailable, Yield];
    if bodyRaises {
      events := events + [ExitBase];
      outcome := Failure(BodyRaised);
      return;
    }
    var teardown := [RequestShutdown(SHUTDOWN_TIMEOUT)];
    var warnings: seq<Event> := [];
    outcome := Success(());
    match shutdown {
      case ShutdownReturned =>
      case ShutdownTimedOut =>
        warnings := [WarnShutdownTimeout];
      case ShutdownRaised =>
        outcome := Failure(ShutdownFailed);
    }
    teardown := teardown + warnings + [Stop];
    events := events + (teardown + [ExitBase]);
  }

  // ---------------------------------------------------------------------------
  // Order of events

  lemma OnceAtLast(s: seq<Event>, e: Event)
    requires e !in s
    ensures OnceAt(s + [e], |s|, e)
  {
    assert (s + [e])[..|s|] == s;
    assert (s + [e])[|s| + 1..] == [];
  }

  lemma OnceAtAppend(s: seq<Event>, i: int, e: Event, t: seq<Event>)
    requires OnceAt(s, i, e) && e !in t
    ensures OnceAt(s + t, i, e)
  {
    assert (s + t)[..i] == s[..i];
    assert (s + t)[i + 1..] == s[i + 1..] + t;
  }

  lemma OnceAtPrepend(s: seq<Event>, t: seq<Event>, i: int, e: Event)
    requires e !in s && OnceAt(t, i, e)
    ensures OnceAt(s + t, |s| + i, e)
  {
    assert (s + t)[..|s| + i] == s + t[..i];
    assert (s + t)[|s| + i + 1..] == t[i + 1..];
  }

  /** Every run registers the three handlers, then enters the base context and
      starts the process. */
  lemma OpeningEvents(params: Result<map<string, Json>, PyException>, reply: map<string, Json>,
                      bodyRaises: bool, shutdown: ShutdownOutcome)
    ensures var events := StartTrace(params, reply, bodyRaises, shutdown).events;
      && |events| >= 6
      && events[0] == Register(WindowLogMessage) && events[1] == Register(Progress)
      && events[2] == Register(PublishDiagnostics)
      && events[3] == EnterBase && events[4] == StartProcess
  {
  }

  /** Every run leaves the base context once, as its last event, whatever raised. */
  lemma ExitBaseLast(params: Result<map<string, Json>, PyException>, reply: map<string, Json>,
                     bodyRaises: bool, shutdown: ShutdownOutcome)
    ensures var events := StartTrace(params, reply, bodyRaises, shutdown).events;
      OnceAt(events, |events| - 1, ExitBase)
  {
    var started := HANDLERS + [EnterBase, StartProcess];
    match params
    case Failure(_) =>
      OnceAtLast(started, ExitBase);
    case Success(p) =>
      var sent := started + [SendInitialize(p)];
      if !AcceptedReply(reply) {
        OnceAtLast(sent, ExitBase);
      } else {
        var after := AfterYield(bodyRaises, shutdown);
        OnceAtPrepend(sent + [NotifyInitialized, CompletionsAvailable, Yield], after, |after| - 1, ExitBase);
      }
  }

  /** Parameters that cannot be built stop the run before `initialize` is sent. */
  lemma ParamsFailureStopsBeforeInitialize(params: Result<map<string, Json>, PyException>, reply: map<string, Json>,
                                           bodyRaises: bool, shutdown: ShutdownOutcome)
    requires params.Failure?
    ensures StartTrace(params, reply, bodyRaises, shutdown)
         == Run(HANDLERS + [EnterBase, StartProcess, ExitBase], Failure(ParamsFailed(params.error)))
  {
  }

  /** Otherwise the sixth event sends exactly the parameters that were built. */
  lemma InitializeSendsParams(params: Result<map<string, Json>, PyException>, reply: map<string, Json>,
                              bodyRaises: bool, shutdown: ShutdownOutcome)
    requires params.Success?
    ensures var events := StartTrace(params, reply, bodyRaises, shutdown).events;
      |events| > 6 && events[5] == SendInitialize(params.value)
  {
  }

  /** A reply without a `capabilities` dict raises, and neither `initialized`,
      readiness, the hand-over nor `stop` happens. */
  lemma RejectedReplyRaises(params: Result<map<string, Json>, PyException>, reply: map<string, Json>,
                           bodyRaises: bool, shutdown: ShutdownOutcome)
    requires params.Success? && !AcceptedReply(reply)
    ensures var run := StartTrace(params, reply, bodyRaises, shutdown);
      && run.outcome == Failure(if CAPABILITIES !in reply then MissingCapabilities else CapabilitiesNotObject)
      && NotifyInitialized !in run.events && CompletionsAvailable !in run.events
      && Yield !in run.events && Stop !in run.events
  {
  }

  /** An accepted reply: `initialized` is sent exactly once, readiness is
      signalled exactly once right after it, and then the session is handed over. */
  lemma InitializedExactlyOnce(params: Result<map<string, Json>, PyException>, reply: map<string, Json>,
                               bodyRaises: bool, shutdown: ShutdownOutcome)
    requires params.Success? && AcceptedReply(reply)
    ensures var events := StartTrace(params, reply, bodyRaises, shutdown).events;
      OnceAt(events, 6, NotifyInitialized) && OnceAt(events, 7, CompletionsAvailable) && OnceAt(events, 8, Yield)
  {
    var sent := HANDLERS + [EnterBase, StartProcess] + [SendInitialize(params.value)];
    var ready := sent + [NotifyInitialized, CompletionsAvailable, Yield];
    ReadyOnce(sent);
    var after := AfterYield(bodyRaises, shutdown);
    OnceAtAppend(ready, 6, NotifyInitialized, after);
    OnceAtAppend(ready, 7, CompletionsAvailable, after);
    OnceAtAppend(ready, 8, Yield, after);
  }

  lemma ReadyOnce(sent: seq<Event>)
    requires |sent| == 6
    requires NotifyInitialized !in sent && CompletionsAvailable !in sent && Yield !in sent
    ensures var ready := sent + [NotifyInitialized, CompletionsAvailable, Yield];
      OnceAt(ready, 6, NotifyInitialized) && OnceAt(ready, 7, CompletionsAvailable) && OnceAt(ready, 8, Yield)
  {
    var ready := sent + [NotifyInitialized, CompletionsAvailable, Yield];
    assert ready[..6] == sent && ready[..7] == sent + [NotifyInitialized] && ready[..8] == sent + [NotifyInitialized, CompletionsAvailable];
    assert ready[7..] == [CompletionsAvailable, Yield] && ready[8..] == [Yield] && ready[9..] == [];
  }

  /** The teardown opens with the only shutdown request. */
  lemma TeardownRequestFirst(shutdown: ShutdownOutcome)
    ensures OnceAt(AfterYield(false, shutdown), 0, RequestShutdown(SHUTDOWN_TIMEOUT))
  {
    var request := RequestShutdown(SHUTDOWN_TIMEOUT);
    var warnings := ShutdownWarnings(shutdown);
    OnceAtLast([], request);
    assert [request] + warnings + [Stop] + [ExitBase] == [request] + (warnings + [Stop] + [ExitBase]);
    OnceAtAppend([request], 0, request, warnings + [Stop] + [ExitBase]);
  }

  /** The teardown's only `stop` comes just before the base context is left. */
  lemma TeardownStopLast(shutdown: ShutdownOutcome)
    ensures var after := AfterYield(false, shutdown);
      OnceAt(after, |after| - 2, Stop)
  {
    var warnings := ShutdownWarnings(shutdown);
    var stopping := [RequestShutdown(SHUTDOWN_TIMEOUT)] + warnings;
    OnceAtLast(stopping, Stop);
    OnceAtAppend(stopping + [Stop], |stopping|, Stop, [ExitBase]);
  }

  /** The caller's body returned: shutdown is requested once, with the 5-unit
      bound, right after the hand-over. */
  lemma ShutdownRequestedOnce(params: Result<map<string, Json>, PyException>, reply: map<string, Json>,
                              shutdown: ShutdownOutcome)
    requires params.Success? && AcceptedReply(reply)
    ensures OnceAt(StartTrace(params, reply, false, shutdown).events, 9, RequestShutdown(SHUTDOWN_TIMEOUT))
  {
    var ready := HANDLERS + [EnterBase, StartProcess] + [SendInitialize(params.value)]
                 + [NotifyInitialized, CompletionsAvailable, Yield];
    TeardownRequestFirst(shutdown);
    OnceAtPrepend(ready, AfterYield(false, shutdown), 0, RequestShutdown(SHUTDOWN_TIMEOUT));
  }

  /** The caller's body returned: `stop` runs once, after the shutdown request,
      whether that returned, timed out or raised. */
  lemma StopAfterShutdown(params: Result<map<string, Json>, PyException>, reply: map<string, Json>,
                          shutdown: ShutdownOutcome)
    requires params.Success? && AcceptedReply(reply)
    ensures var events := StartTrace(params, reply, false, shutdown).events;
      9 < |events| - 2 && OnceAt(events, |events| - 2, Stop)
  {
    var ready := HANDLERS + [EnterBase, StartProcess] + [SendInitialize(params.value)]
                 + [NotifyInitialized, CompletionsAvailable, Yield];
    var after := AfterYield(false, shutdown);
    TeardownStopLast(shutdown);
    OnceAtPrepend(ready, after, |after| - 2, Stop);
  }

  /** A shutdown timeout only adds the warning: the run still succeeds. A
      shutdown that raised otherwise is the run's failure. */
  lemma TimeoutOnlyWarns(params: Result<map<string, Json>, PyException>, reply: map<string, Json>,
                         shutdown: ShutdownOutcome)
    requires params.Success? && AcceptedReply(reply)
    ensures var run := StartTrace(params, reply, false, shutdown);
      && (WarnShutdownTimeout in run.events <==> shutdown == ShutdownTimedOut)
      && (run.outcome.Success? <==> shutdown != ShutdownRaised)
      && (run.outcome.Failure? ==> run.outcome.error == ShutdownFailed)
  {
  }

  /** The caller's body raised: the exception passes the `yield`, so neither the
      shutdown request nor `stop` runs. */
  lemma BodyRaisedSkipsShutdown(params: Result<map<string, Json>, PyException>, reply: map<string, Json>,
                                shutdown: ShutdownOutcome)
    requires params.Success? && AcceptedReply(reply)
    ensures var run := StartTrace(params, reply, true, shutdown);
      && RequestShutdown(SHUTDOWN_TIMEOUT) !in run.events && Stop !in run.events
      && run.outcome == Failure(BodyRaised)
  {
  }

  /** `stop` never runs without a preceding shutdown request. */
  lemma StopOnlyAfterShutdownRequest(params: Result<map<string, Json>, PyException>, reply: map<string, Json>,
                                     bodyRaises: bool, shutdown: ShutdownOutcome)
    ensures var events := StartTrace(params, reply, bodyRaises, shutdown).events;
      Stop in events ==> exists i, j :: 0 <= i < j < |events| && events[i] == RequestShutdown(SHUTDOWN_TIMEOUT) && events[j] == Stop
  {
    var events := StartTrace(params, reply, bodyRaises, shutdown).events;
    if Stop in events {
      ShutdownRequestedOnce(params, reply, shutdown);
      StopAfterShutdown(params, reply, shutdown);
      assert events[9] == RequestShutdown(SHUTDOWN_TIMEOUT) && events[|events| - 2] == Stop;
    }
  }
}
