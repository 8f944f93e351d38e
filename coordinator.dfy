/**
 * The module state of src/index.ts as one object whose methods update it in
 * place, in the order the source does. Each method performs exactly one
 * `Shutdown.Step` on `Snapshot()` and records its event in `history`, and
 * `Valid()` keeps the object equal to the run of that history from load, so
 * the properties proved about runs (`Shutdown.RunInv`, `Shutdown.Lifetime`)
 * apply to the object after any sequence of calls.
 */
module Graceful {
  import opened JsValues
  import opened Shutdown
  import Options

  class Coordinator {
    var isShuttingDown: bool
    var processTimeout: int
    var httpListener: Option<Server>
    var onClose: Option<Handler>
    /** The signal names of the shutdown handlers registered with the process. */
    var handlers: seq<string>
    /** The effects so far, oldest first. */
    ghost var effects: seq<Effect>
    /** The status passed to `process.exit`, once called. */
    var exitCode: Option<int>
    /** The events that have happened to the module since it was loaded. */
    ghost var history: seq<Event>

    ghost function Snapshot(): State
      reads this
    {
      State(isShuttingDown, processTimeout, httpListener, onClose, handlers, effects, exitCode)
    }

    /** The object is the state reached by running its history from load. */
    ghost predicate Valid()
      reads this
    {
      Executable(Init, history) && Snapshot() == Run(Init, history)
    }

    /** The invariant of every reachable state holds of the object, and
        `Shutdown.Lifetime(history)` describes its whole trace. */
    lemma Reachable()
      requires Valid()
      ensures Inv(Snapshot())
    {
      InitInv();
      RunInv(Init, history);
    }

    /** The module as loaded: not shutting down, a 1000 ms deadline, no listener,
        no callback, no handlers. */
    constructor ()
      ensures Snapshot() == Init && history == []
      ensures Valid()
    {
      isShuttingDown := false;
      processTimeout := InitialTimeout;
      httpListener := None;
      onClose := None;
      handlers := [];
      effects := [];
      exitCode := None;
      history := [];
    }

    /** `start(app, options, handler)`; `server` is the listener `app.listen` returns. */
    method Start(options: Option<Object>, handler: Option<Handler>, server: Server)
      requires Valid() && exitCode.None?
      modifies this
      ensures Snapshot() == Step(old(Snapshot()), Event.Start(options, handler, server))
      ensures Valid() && history == old(history) + [Event.Start(options, handler, server)]
    {
      ghost var before := Snapshot();
      RunSnoc(Init, history, Event.Start(options, handler, server));
      history := history + [Event.Start(options, handler, server)];
      var settings := Options.Effective(options);
      if settings.timeout.Num? {
        processTimeout := settings.timeout.n;
      }
      onClose := handler;
      httpListener := Some(server);
      effects := effects + [Listening(server, settings.port, if Truthy(settings.host) then Some(settings.host) else None)];
      RegisterHandlers();
      ghost var after := StartStep(before, options, handler, server);
      assert after.processTimeout == processTimeout;
      assert after.trace == effects;
      assert after.handlers == handlers;
      assert after == Snapshot();
    }

    /** `events.forEach((event) => process.on(event, getShutdownHandler(event)))`. */
    method RegisterHandlers()
      modifies this`handlers
      ensures handlers == old(handlers) + Events
    {
      for i := 0 to |Events|
        invariant handlers == old(handlers) + Events[..i]
      {
        handlers := handlers + [Events[i]];
      }
      assert Events[..|Events|] == Events;
    }

    /** The shutdown handler `getShutdownHandler(name)` run by the process. */
    method HandleSignal(name: string) returns (accepted: bool)
      requires Valid() && exitCode.None? && name in handlers && httpListener.Some?
      modifies this
      ensures Snapshot() == Step(old(Snapshot()), Signal(name))
      ensures Valid() && history == old(history) + [Signal(name)]
      ensures accepted == !old(isShuttingDown)
    {
      RunSnoc(Init, history, Signal(name));
      history := history + [Signal(name)];
      if isShuttingDown {
        return false;
      }
      isShuttingDown := true;
      effects := effects + [ShutdownBegan(name)];
      effects := effects + [CloseRequested(httpListener.value)];
      if onClose.Some? {
        effects := effects + [CallbackInvoked(onClose.value, name)];
      }
      effects := effects + [TimerArmed(processTimeout)];
      return true;
    }

    /** `handleClose`, run by the listener once its connections have closed. */
    method HandleClose()
      requires Valid() && exitCode.None? && Count(effects, CloseKind) > 0
      modifies this
      ensures Snapshot() == Step(old(Snapshot()), ListenerClosed)
      ensures Valid() && history == old(history) + [ListenerClosed]
    {
      RunSnoc(Init, history, ListenerClosed);
      history := history + [ListenerClosed];
      effects := effects + [Exited(0)];
      exitCode := Some(0);
    }

    /** `handleTimeout`, run when the drain deadline passes. */
    method HandleTimeout()
      requires Valid() && exitCode.None? && Count(effects, TimerKind) > 0
      modifies this
      ensures Snapshot() == Step(old(Snapshot()), TimerFired)
      ensures Valid() && history == old(history) + [TimerFired]
    {
      RunSnoc(Init, history, TimerFired);
      history := history + [TimerFired];
      effects := effects + [Exited(1)];
      exitCode := Some(1);
    }

    /** `middleware(req, res, next)`: what happens to one request. */
    method Middleware() returns (r: GateResult)
      requires Valid() && exitCode.None?
      modifies this`effects, this`history
      ensures Snapshot() == Step(old(Snapshot()), Request)
      ensures Valid() && history == old(history) + [Request]
      ensures r.Next? <==> !isShuttingDown
      ensures r.Reject? ==> r == Reject(502, "close", "Server is shutting down.")
    {
      RunSnoc(Init, history, Request);
      history := history + [Request];
      if !isShuttingDown {
        r := Next;
      } else {
        r := Reject(ShuttingDownStatus, "close", ShuttingDownBody);
      }
      effects := effects + [Gated(r)];
    }
  }
}
