/**
 * The graceful-shutdown state machine of src/index.ts as a transition
 * function on values: the four module variables (lines 12-15), the signal
 * handlers registered by `start`, a trace of the effects the module causes
 * and the exit code. Every property that relates several calls is proved
 * here, over any sequence of events.
 */
module Shutdown {
  import opened JsValues
  import Options

  /** The signals `start` subscribes to, in order. */
  const Events: seq<string> := ["SIGTERM", "SIGINT"]

  /** `processTimeout` before any `start`. */
  const InitialTimeout: int := 1000

  const ShuttingDownStatus: int := 502
  const ShuttingDownBody: string := "Server is shutting down."

  /** The listener returned by `app.listen`, known only by identity. */
  datatype Server = Server(id: nat)

  /** The shutdown callback passed to `start`, known only by identity. */
  datatype Handler = Handler(id: nat)

  /** What the middleware does with a request: hand it on to `next`, or answer it
      itself with a status, a `Connection` header and a body. */
  datatype GateResult = Next | Reject(status: int, connection: string, body: string)

  /** The decision of `middleware` for the current value of `isShuttingDown`. */
  function Gate(isShuttingDown: bool): (r: GateResult)
    ensures r.Next? <==> !isShuttingDown
    ensures r.Reject? ==> r.status == 502 && r.connection == "close" && r.body == "Server is shutting down."
  {
    if !isShuttingDown then Next else Reject(ShuttingDownStatus, "close", ShuttingDownBody)
  }

  /** `shutdownMiddleware()` hands out the one gate. */
  function ShutdownMiddleware(): (gate: bool -> GateResult)
    ensures forall b :: gate(b) == Gate(b)
  {
    Gate
  }

  /** An effect of the module on the world outside it, in the order it happens. */
  datatype Effect =
    | Listening(server: Server, port: Value, host: Option<Value>)  // app.listen(port[, host])
    | ShutdownBegan(signal: string)                                // isShuttingDown := true
    | CloseRequested(server: Server)                               // httpListener.close(handleClose)
    | CallbackInvoked(handler: Handler, signal: string)            // onClose(event)
    | TimerArmed(delay: int)                                       // setTimeout(handleTimeout, delay)
    | Gated(result: GateResult)                                    // a request went through the middleware
    | Exited(code: int)                                            // process.exit(code)
  {
    function Kind(): EffectKind
    {
      match this
      case Listening(_, _, _) => ListenKind
      case ShutdownBegan(_) => BeginKind
      case CloseRequested(_) => CloseKind
      case CallbackInvoked(_, _) => CallbackKind
      case TimerArmed(_) => TimerKind
      case Gated(_) => GateKind
      case Exited(_) => ExitKind
    }
  }

  datatype EffectKind = ListenKind | BeginKind | CloseKind | CallbackKind | TimerKind | GateKind | ExitKind

  /** How many effects of kind `k` the trace holds. */
  function Count(t: seq<Effect>, k: EffectKind): nat
  {
    if t == [] then 0 else (if t[0].Kind() == k then 1 else 0) + Count(t[1..], k)
  }

  lemma {:induction false} CountAppend(a: seq<Effect>, b: seq<Effect>, k: EffectKind)
    ensures Count(a + b, k) == Count(a, k) + Count(b, k)
  {
    if a == [] {
      assert a + b == b;
    } else {
      assert (a + b)[1..] == a[1..] + b;
      CountAppend(a[1..], b, k);
    }
  }

  lemma {:induction false} CountPositive(t: seq<Effect>, i: nat, k: EffectKind)
    requires i < |t| && t[i].Kind() == k
    ensures Count(t, k) > 0
  {
    if i > 0 {
      CountPositive(t[1..], i - 1, k);
    }
  }

  /** An exit before the last effect is one more exit than the last effect alone. */
  lemma ExitBeforeLast(t: seq<Effect>, i: nat)
    requires i < |t| - 1 && t[i].Exited?
    ensures Count(t, ExitKind) >= 1 + (if t[|t| - 1].Exited? then 1 else 0)
  {
    var p := t[..|t| - 1];
    assert t == p + [t[|t| - 1]];
    CountPositive(p, i, ExitKind);
    CountSnoc(p, t[|t| - 1], ExitKind);
  }

  lemma CountSnoc(t: seq<Effect>, e: Effect, k: EffectKind)
    ensures Count(t + [e], k) == Count(t, k) + (if e.Kind() == k then 1 else 0)
  {
    CountAppend(t, [e], k);
    assert [e][1..] == [];
  }

  /** The module state, the handlers registered with the process, the effects so far
      and the exit code once the process has exited. */
  datatype State = State(
    isShuttingDown: bool,
    processTimeout: int,
    httpListener: Option<Server>,
    onClose: Option<Handler>,
    handlers: seq<string>,
    trace: seq<Effect>,
    exitCode: Option<int>)

  /** The state when the module is loaded (src/index.ts:12-15). */
  const Init: State := State(false, InitialTimeout, None, None, [], [], None)

  /** Something that happens to the module: a call to `start`, a shutdown handler
      run for a signal, a request reaching the middleware, the listener's close
      callback, or the timer firing. */
  datatype Event =
    | Start(options: Option<Object>, handler: Option<Handler>, server: Server)
    | Signal(name: string)
    | Request
    | ListenerClosed
    | TimerFired

  /** Whether the event can happen now. Nothing happens after `process.exit`; a
      handler runs only for a signal it was registered for, and `start` assigns
      the listener before it registers any handler; the close callback and the
      timer fire only once requested. */
  predicate Enabled(s: State, ev: Event)
  {
    s.exitCode.None? &&
    match ev
    case Start(_, _, _) => true
    case Signal(name) => name in s.handlers && s.httpListener.Some?
    case Request => true
    case ListenerClosed => Count(s.trace, CloseKind) > 0
    case TimerFired => Count(s.trace, TimerKind) > 0
  }

  /** `start(app, options, handler)`, where `server` is what `app.listen` returns. */
  function StartStep(s: State, options: Option<Object>, handler: Option<Handler>, server: Server): State
  {
    s.(processTimeout := Options.NextTimeout(s.processTimeout, options),
       onClose := handler,
       httpListener := Some(server),
       trace := s.trace + [Listening(server, Options.Effective(options).port, Options.BindHost(options))],
       handlers := s.handlers + Events)
  }

  /** The shutdown handler bound to signal `name`. */
  function SignalStep(s: State, name: string): State
    requires s.httpListener.Some?
  {
    if s.isShuttingDown then s
    else
      var t1 := s.trace + [ShutdownBegan(name)];
      var t2 := t1 + [CloseRequested(s.httpListener.value)];
      var t3 := if s.onClose.Some? then t2 + [CallbackInvoked(s.onClose.value, name)] else t2;
      s.(isShuttingDown := true, trace := t3 + [TimerArmed(s.processTimeout)])
  }

  /** The value the shutdown handler returns. */
  function SignalAccepted(s: State): bool
  {
    !s.isShuttingDown
  }

  function Step(s: State, ev: Event): State
    requires Enabled(s, ev)
  {
    match ev
    case Start(options, handler, server) => StartStep(s, options, handler, server)
    case Signal(name) => SignalStep(s, name)
    case Request => s.(trace := s.trace + [Gated(Gate(s.isShuttingDown))])
    case ListenerClosed => s.(trace := s.trace + [Exited(0)], exitCode := Some(0))
    case TimerFired => s.(trace := s.trace + [Exited(1)], exitCode := Some(1))
  }

  /** Whether the events can happen one after the other, starting in `s`. */
  predicate Executable(s: State, evs: seq<Event>)
    decreases |evs|
  {
    evs == [] || (Enabled(s, evs[0]) && Executable(Step(s, evs[0]), evs[1..]))
  }

  function Run(s: State, evs: seq<Event>): State
    requires Executable(s, evs)
    decreases |evs|
  {
    if evs == [] then s else Run(Step(s, evs[0]), evs[1..])
  }

  // ---------------------------------------------------------------------------
  // The invariant of every reachable state

  function Flag(b: bool): nat
  {
    if b then 1 else 0
  }

  /** Shutdown begins, the listener is asked to close and the timer is armed once
      each, exactly when the flag is set; the callback runs at most that once; the
      process exits at most once. */
  ghost predicate Counted(s: State)
  {
    Count(s.trace, BeginKind) == Flag(s.isShuttingDown) &&
    Count(s.trace, CloseKind) == Flag(s.isShuttingDown) &&
    Count(s.trace, TimerKind) == Flag(s.isShuttingDown) &&
    Count(s.trace, CallbackKind) <= Flag(s.isShuttingDown) &&
    Count(s.trace, ExitKind) == Flag(s.exitCode.Some?)
  }

  /** Effect `e` may follow the effects `p`: a close request comes right after shutdown
      begins; the callback right after the close request, with the signal that began
      the shutdown; the timer right after the close request or the callback; and a
      request gets the gate's answer for whether a shutdown has begun before it. */
  ghost predicate Follows(p: seq<Effect>, e: Effect)
  {
    (e.CloseRequested? ==> |p| > 0 && p[|p| - 1].ShutdownBegan?) &&
    (e.CallbackInvoked? ==> |p| > 1 && p[|p| - 1].CloseRequested? && p[|p| - 2] == ShutdownBegan(e.signal)) &&
    (e.TimerArmed? ==> |p| > 0 && (p[|p| - 1].CloseRequested? || p[|p| - 1].CallbackInvoked?)) &&
    (e.Gated? ==> e.result == Gate(Count(p, BeginKind) != 0))
  }

  ghost predicate Ordered(t: seq<Effect>)
  {
    forall i :: 0 <= i < |t| ==> Follows(t[..i], t[i])
  }

  /** The exit is the last effect, and only follows the start of the shutdown. */
  ghost predicate ExitIsLast(s: State)
  {
    s.exitCode.Some? ==> s.isShuttingDown && |s.trace| > 0 && s.trace[|s.trace| - 1] == Exited(s.exitCode.value)
  }

  /** Only SIGTERM and SIGINT have handlers, and only once a listener is assigned. */
  ghost predicate Registered(s: State)
  {
    (forall i :: 0 <= i < |s.handlers| ==> s.handlers[i] in Events) &&
    (s.handlers != [] ==> s.httpListener.Some?)
  }

  ghost predicate Inv(s: State)
  {
    Counted(s) && Ordered(s.trace) && ExitIsLast(s) && Registered(s)
  }

  lemma InitInv()
    ensures Inv(Init)
  {
  }

  lemma OrderedSnoc(t: seq<Effect>, e: Effect)
    requires Ordered(t) && Follows(t, e)
    ensures Ordered(t + [e])
  {
    forall i | 0 <= i < |t + [e]|
      ensures Follows((t + [e])[..i], (t + [e])[i])
    {
      if i < |t| {
        assert (t + [e])[..i] == t[..i];
      } else {
        assert (t + [e])[..i] == t;
      }
    }
  }

  lemma StartInv(s: State, options: Option<Object>, handler: Option<Handler>, server: Server)
    requires Inv(s) && s.exitCode.None?
    ensures Inv(StartStep(s, options, handler, server))
  {
    var e := Listening(server, Options.Effective(options).port, Options.BindHost(options));
    OrderedSnoc(s.trace, e);
    forall k ensures Count(s.trace + [e], k) == Count(s.trace, k) + (if k == ListenKind then 1 else 0) {
      CountSnoc(s.trace, e, k);
    }
    var r := StartStep(s, options, handler, server);
    forall i | 0 <= i < |r.handlers| ensures r.handlers[i] in Events {
      if i >= |s.handlers| {
        assert r.handlers[i] == Events[i - |s.handlers|];
      }
    }
  }

  /** The trace a first run of a shutdown handler leaves, built effect by effect. */
  lemma SignalTrace(s: State, name: string)
    requires s.httpListener.Some? && !s.isShuttingDown
    ensures var t1 := s.trace + [ShutdownBegan(name)];
      var t2 := t1 + [CloseRequested(s.httpListener.value)];
      var t3 := if s.onClose.Some? then t2 + [CallbackInvoked(s.onClose.value, name)] else t2;
      SignalStep(s, name).trace == t3 + [TimerArmed(s.processTimeout)]
  {
  }

  lemma SignalOrdered(s: State, name: string)
    requires Ordered(s.trace) && s.httpListener.Some? && !s.isShuttingDown
    ensures Ordered(SignalStep(s, name).trace)
  {
    SignalTrace(s, name);
    var t1 := s.trace + [ShutdownBegan(name)];
    var t2 := t1 + [CloseRequested(s.httpListener.value)];
    var t3 := if s.onClose.Some? then t2 + [CallbackInvoked(s.onClose.value, name)] else t2;
    OrderedSnoc(s.trace, ShutdownBegan(name));
    OrderedSnoc(t1, CloseRequested(s.httpListener.value));
    if s.onClose.Some? {
      OrderedSnoc(t2, CallbackInvoked(s.onClose.value, name));
    }
    OrderedSnoc(t3, TimerArmed(s.processTimeout));
  }

  lemma SignalCount(s: State, name: string, k: EffectKind)
    requires s.httpListener.Some? && !s.isShuttingDown
    ensures Count(SignalStep(s, name).trace, k) ==
      Count(s.trace, k) + (if k == BeginKind || k == CloseKind || k == TimerKind then 1 else 0)
                        + (if k == CallbackKind && s.onClose.Some? then 1 else 0)
  {
    SignalTrace(s, name);
    var t1 := s.trace + [ShutdownBegan(name)];
    var t2 := t1 + [CloseRequested(s.httpListener.value)];
    var t3 := if s.onClose.Some? then t2 + [CallbackInvoked(s.onClose.value, name)] else t2;
    CountSnoc(s.trace, ShutdownBegan(name), k);
    CountSnoc(t1, CloseRequested(s.httpListener.value), k);
    if s.onClose.Some? {
      CountSnoc(t2, CallbackInvoked(s.onClose.value, name), k);
    }
    CountSnoc(t3, TimerArmed(s.processTimeout), k);
  }

  lemma SignalInv(s: State, name: string)
    requires Inv(s) && s.exitCode.None? && s.httpListener.Some?
    ensures Inv(SignalStep(s, name))
  {
    if !s.isShuttingDown {
      SignalOrdered(s, name);
      SignalCount(s, name, BeginKind);
      SignalCount(s, name, CloseKind);
      SignalCount(s, name, TimerKind);
      SignalCount(s, name, CallbackKind);
      SignalCount(s, name, ExitKind);
    }
  }

  lemma ExitInv(s: State, code: int)
    requires Inv(s) && s.exitCode.None?
    requires Count(s.trace, CloseKind) > 0 || Count(s.trace, TimerKind) > 0
    ensures Inv(s.(trace := s.trace + [Exited(code)], exitCode := Some(code)))
  {
    OrderedSnoc(s.trace, Exited(code));
    forall k ensures Count(s.trace + [Exited(code)], k) == Count(s.trace, k) + (if k == ExitKind then 1 else 0) {
      CountSnoc(s.trace, Exited(code), k);
    }
  }

  lemma RequestInv(s: State)
    requires Inv(s) && s.exitCode.None?
    ensures Inv(Step(s, Request))
  {
    var e := Gated(Gate(s.isShuttingDown));
    OrderedSnoc(s.trace, e);
    forall k ensures Count(s.trace + [e], k) == Count(s.trace, k) + (if k == GateKind then 1 else 0) {
      CountSnoc(s.trace, e, k);
    }
  }

  /** Every step keeps the invariant. */
  lemma StepInv(s: State, ev: Event)
    requires Inv(s) && Enabled(s, ev)
    ensures Inv(Step(s, ev))
  {
    match ev
    case Start(options, handler, server) => StartInv(s, options, handler, server);
    case Signal(name) => SignalInv(s, name);
    case Request => RequestInv(s);
    case ListenerClosed => ExitInv(s, 0);
    case TimerFired => ExitInv(s, 1);
  }

  lemma {:induction false} RunInv(s: State, evs: seq<Event>)
    requires Inv(s) && Executable(s, evs)
    ensures Inv(Run(s, evs))
    decreases |evs|
  {
    if evs != [] {
      StepInv(s, evs[0]);
      RunInv(Step(s, evs[0]), evs[1..]);
    }
  }

  // ---------------------------------------------------------------------------
  // Properties of single steps

  /** The first run of a shutdown handler sets the flag, then asks the listener to
      close, then calls the callback (if one is set) with the signal's name, then
      arms one timer with the current deadline, and returns true. */
  lemma FirstSignal(s: State, name: string)
    requires s.httpListener.Some? && !s.isShuttingDown
    ensures SignalAccepted(s)
    ensures var r := SignalStep(s, name);
      r.isShuttingDown &&
      r == s.(isShuttingDown := true, trace := r.trace) &&
      r.trace == s.trace + [ShutdownBegan(name), CloseRequested(s.httpListener.value)]
                         + (if s.onClose.Some? then [CallbackInvoked(s.onClose.value, name)] else [])
                         + [TimerArmed(s.processTimeout)]
  {
  }

  /** Once the flag is set, a shutdown handler, whichever signal runs it, returns
      false and changes nothing. */
  lemma LaterSignal(s: State, name: string)
    requires s.httpListener.Some? && s.isShuttingDown
    ensures !SignalAccepted(s) && SignalStep(s, name) == s
  {
  }

  /** `start` records the merged numeric timeout (or keeps the deadline), replaces
      the callback even by none, takes the new listener, and registers exactly one
      more handler for SIGTERM and one for SIGINT and none for any other signal. */
  lemma StartEffects(s: State, options: Option<Object>, handler: Option<Handler>, server: Server)
    ensures var r := StartStep(s, options, handler, server);
      r.processTimeout == Options.NextTimeout(s.processTimeout, options) &&
      r.onClose == handler && r.httpListener == Some(server) &&
      r.isShuttingDown == s.isShuttingDown && r.exitCode == s.exitCode &&
      (forall name :: multiset(r.handlers)[name] == multiset(s.handlers)[name] + (if name in Events then 1 else 0))
  {
    var r := StartStep(s, options, handler, server);
    assert multiset(r.handlers) == multiset(s.handlers) + multiset{"SIGTERM", "SIGINT"};
  }

  /** Only two steps set an exit code, the close callback with 0 and the timer with 1,
      and after either no event can happen. */
  lemma ExitCodes(s: State, ev: Event)
    requires Enabled(s, ev)
    ensures Step(s, ev).exitCode.Some? ==>
      (ev == ListenerClosed && Step(s, ev).exitCode == Some(0)) ||
      (ev == TimerFired && Step(s, ev).exitCode == Some(1))
    ensures Step(s, ev).exitCode.Some? ==> forall ev' :: !Enabled(Step(s, ev), ev')
  {
  }

  // ---------------------------------------------------------------------------
  // Properties of runs

  /** Nothing is taken back: the flag stays set, the exit code stays recorded, and
      the effects so far remain the start of the trace. */
  lemma {:induction false} RunExtends(s: State, evs: seq<Event>)
    requires Executable(s, evs)
    ensures s.isShuttingDown ==> Run(s, evs).isShuttingDown
    ensures s.exitCode.Some? ==> Run(s, evs) == s
    ensures |s.trace| <= |Run(s, evs).trace| && Run(s, evs).trace[..|s.trace|] == s.trace
    decreases |evs|
  {
    if evs != [] {
      var s' := Step(s, evs[0]);
      assert s'.trace[..|s.trace|] == s.trace;
      RunExtends(s', evs[1..]);
    }
  }

  /** One more enabled event extends a run by exactly one step. */
  lemma {:induction false} RunSnoc(s: State, evs: seq<Event>, ev: Event)
    requires Executable(s, evs) && Enabled(Run(s, evs), ev)
    ensures Executable(s, evs + [ev]) && Run(s, evs + [ev]) == Step(Run(s, evs), ev)
    decreases |evs|
  {
    if evs != [] {
      assert (evs + [ev])[1..] == evs[1..] + [ev];
      RunSnoc(Step(s, evs[0]), evs[1..], ev);
    }
  }

  /** Any burst of N >= 1 signals delivered while accepting has the effect of the
      first alone: one shutdown, one close request, one timer. */
  lemma {:induction false} SignalBurst(s: State, names: seq<string>)
    requires Inv(s) && !s.isShuttingDown && |names| >= 1
    requires Executable(s, SignalsOf(names))
    ensures Run(s, SignalsOf(names)) == SignalStep(s, names[0])
    ensures var r := Run(s, SignalsOf(names));
      Count(r.trace, BeginKind) == 1 && Count(r.trace, CloseKind) == 1 && Count(r.trace, TimerKind) == 1
  {
    var evs := SignalsOf(names);
    var s1 := Step(s, evs[0]);
    assert s1.isShuttingDown;
    LaterSignals(s1, names[1..]);
    assert evs[1..] == SignalsOf(names[1..]);
    SignalInv(s, names[0]);
  }

  function SignalsOf(names: seq<string>): (evs: seq<Event>)
    ensures |evs| == |names| && forall i :: 0 <= i < |names| ==> evs[i] == Signal(names[i])
  {
    if names == [] then [] else [Signal(names[0])] + SignalsOf(names[1..])
  }

  lemma {:induction false} LaterSignals(s: State, names: seq<string>)
    requires s.isShuttingDown && Executable(s, SignalsOf(names))
    ensures Run(s, SignalsOf(names)) == s
    decreases |names|
  {
    if names != [] {
      var evs := SignalsOf(names);
      assert evs[1..] == SignalsOf(names[1..]);
      LaterSignals(Step(s, evs[0]), names[1..]);
    }
  }

  /** The whole life of the module, from load to any point: at most one shutdown, one
      close request, one timer, one callback call and one exit, which is the last
      effect; and the gate forwards exactly the requests that arrive before the
      shutdown began and answers every later one with the 502 rejection. */
  lemma Lifetime(evs: seq<Event>)
    requires Executable(Init, evs)
    ensures var t := Run(Init, evs).trace;
      Count(t, BeginKind) <= 1 && Count(t, CloseKind) <= 1 && Count(t, TimerKind) <= 1 &&
      Count(t, CallbackKind) <= 1 && Count(t, ExitKind) <= 1
    ensures var t := Run(Init, evs).trace;
      forall i :: 0 <= i < |t| && t[i].Exited? ==> i == |t| - 1
    ensures var t := Run(Init, evs).trace;
      forall i :: 0 <= i < |t| && t[i].Gated? ==>
        (t[i].result == Next <==> Count(t[..i], BeginKind) == 0) &&
        (t[i].result != Next ==> t[i].result == Reject(502, "close", "Server is shutting down."))
  {
    InitInv();
    RunInv(Init, evs);
    var r := Run(Init, evs);
    var t := r.trace;
    forall i | 0 <= i < |t| && t[i].Exited? ensures i == |t| - 1 {
      if i < |t| - 1 {
        ExitBeforeLast(t, i);
      }
    }
    forall i | 0 <= i < |t| && t[i].Gated?
      ensures t[i].result == Next <==> Count(t[..i], BeginKind) == 0
      ensures t[i].result != Next ==> t[i].result == Reject(502, "close", "Server is shutting down.")
    {
      assert Follows(t[..i], t[i]);
    }
  }

  lemma RunCons(s: State, ev: Event, evs: seq<Event>)
    requires Enabled(s, ev) && Executable(Step(s, ev), evs)
    ensures Executable(s, [ev] + evs) && Run(s, [ev] + evs) == Run(Step(s, ev), evs)
  {
    assert ([ev] + evs)[1..] == evs;
  }

  /** `start` with no options and a callback, from load: the defaults apply. */
  lemma StartWithDefaults(h: Handler, srv: Server)
    ensures StartStep(Init, None, Some(h), srv) ==
      State(false, 1000, Some(srv), Some(h), ["SIGTERM", "SIGINT"], [Listening(srv, Num(3000), None)], None)
  {
    assert Options.Effective(None).port == Num(3000) && Options.BindHost(None) == None;
  }

  /** `start` with only a 50 ms timeout and no callback, from load. */
  lemma StartWithTimeout(srv: Server)
    ensures StartStep(Init, Some(map["timeout" := Num(50)]), None, srv) ==
      State(false, 50, Some(srv), None, ["SIGTERM", "SIGINT"], [Listening(srv, Num(3000), None)], None)
  {
    var options := Some(map["timeout" := Num(50)]);
    assert Options.Effective(options).port == Num(3000) && Options.BindHost(options) == None;
    assert Options.NextTimeout(InitialTimeout, options) == 50;
  }

  /** Two signals a moment apart, a request, then the listener closes: one shutdown,
      one callback call with the first signal's name, one timer with the default
      deadline, the request refused, and exit status 0. */
  lemma TwoSignalsThenDrained(h: Handler, srv: Server)
    ensures var evs := [Event.Start(None, Some(h), srv), Signal("SIGTERM"), Signal("SIGINT"), Request, ListenerClosed];
      Executable(Init, evs) &&
      Run(Init, evs).trace == [Listening(srv, Num(3000), None), ShutdownBegan("SIGTERM"), CloseRequested(srv),
                               CallbackInvoked(h, "SIGTERM"), TimerArmed(1000),
                               Gated(Reject(502, "close", "Server is shutting down.")), Exited(0)] &&
      Run(Init, evs).exitCode == Some(0)
  {
    StartWithDefaults(h, srv);
    var s1 := StartStep(Init, None, Some(h), srv);
    var s2 := SignalStep(s1, "SIGTERM");
    var t2 := [Listening(srv, Num(3000), None), ShutdownBegan("SIGTERM"), CloseRequested(srv),
               CallbackInvoked(h, "SIGTERM"), TimerArmed(1000)];
    assert s2 == s1.(isShuttingDown := true, trace := t2);
    var t4 := t2 + [Gated(Reject(502, "close", "Server is shutting down."))];
    var s4 := s2.(trace := t4);
    assert t4[2] == CloseRequested(srv);
    CountPositive(t4, 2, CloseKind);
    var s5 := s4.(trace := t4 + [Exited(0)], exitCode := Some(0));
    assert s5.trace == [Listening(srv, Num(3000), None), ShutdownBegan("SIGTERM"), CloseRequested(srv),
                        CallbackInvoked(h, "SIGTERM"), TimerArmed(1000),
                        Gated(Reject(502, "close", "Server is shutting down.")), Exited(0)];
    RunCons(s4, ListenerClosed, []);
    RunCons(s2, Request, [ListenerClosed]);
    RunCons(s2, Signal("SIGINT"), [Request, ListenerClosed]);
    RunCons(s1, Signal("SIGTERM"), [Signal("SIGINT"), Request, ListenerClosed]);
    RunCons(Init, Event.Start(None, Some(h), srv), [Signal("SIGTERM"), Signal("SIGINT"), Request, ListenerClosed]);
    assert Run(Init, [Event.Start(None, Some(h), srv), Signal("SIGTERM"), Signal("SIGINT"), Request, ListenerClosed]) == s5;
  }

  /** A 50 ms deadline, no callback, a signal, then the deadline passes first: the
      timer is armed with 50, the process exits with status 1, and the listener's
      late close callback can no longer run. */
  lemma DeadlineFirst(srv: Server)
    ensures var evs := [Event.Start(Some(map["timeout" := Num(50)]), None, srv), Signal("SIGINT"), TimerFired];
      Executable(Init, evs) &&
      Run(Init, evs).trace == [Listening(srv, Num(3000), None), ShutdownBegan("SIGINT"), CloseRequested(srv),
                               TimerArmed(50), Exited(1)] &&
      Run(Init, evs).exitCode == Some(1) &&
      !Enabled(Run(Init, evs), ListenerClosed)
  {
    var options := Some(map["timeout" := Num(50)]);
    StartWithTimeout(srv);
    var s1 := StartStep(Init, options, None, srv);
    var s2 := SignalStep(s1, "SIGINT");
    var t2 := [Listening(srv, Num(3000), None), ShutdownBegan("SIGINT"), CloseRequested(srv), TimerArmed(50)];
    assert s2 == s1.(isShuttingDown := true, trace := t2);
    assert t2[3] == TimerArmed(50);
    CountPositive(t2, 3, TimerKind);
    var s3 := s2.(trace := t2 + [Exited(1)], exitCode := Some(1));
    assert s3.trace == [Listening(srv, Num(3000), None), ShutdownBegan("SIGINT"), CloseRequested(srv),
                        TimerArmed(50), Exited(1)];
    RunCons(s2, TimerFired, []);
    RunCons(s1, Signal("SIGINT"), [TimerFired]);
    RunCons(Init, Event.Start(options, None, srv), [Signal("SIGINT"), TimerFired]);
    assert Run(Init, [Event.Start(options, None, srv), Signal("SIGINT"), TimerFired]) == s3;
  }
}
