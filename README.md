# express-graceful: a Dafny model of the graceful-shutdown coordinator

This project models the graceful-shutdown coordinator of express-graceful
(`src/index.ts`). The coordinator keeps four module variables:

- `isShuttingDown`, a flag that is only ever set to true;
- `processTimeout`, the drain deadline in milliseconds;
- `httpListener`, the listener returned by `app.listen`;
- `onClose`, an optional callback.

`start` merges the caller's options over the defaults `{port: 3000, timeout: 1000}`
and records the timeout and the callback. It binds the listener and registers one
shutdown handler for each of SIGTERM and SIGINT. The first handler to run sets the
flag, asks the listener to close, calls the callback with the signal's name and arms
the deadline timer. Every later run of a handler returns false and does nothing else.
The listener's close callback exits with status 0 and the timer exits with status 1.
The request middleware forwards requests while the flag is clear. After that it
answers each request itself with status 502, `Connection: close` and the body
`Server is shutting down.`.

Files and modules:

- `values.dfy`, module `JsValues`: the JavaScript values that the options use
  (`undefined`, numbers, strings). It also holds object spread, truthiness and the
  text a template literal inserts. That text includes a decimal numeral, proved to
  read back to its number.
- `options.dfy`, module `Options`: the defaults and the merge `{...defaultOptions, ...options}`.
  It also holds the deadline `start` records, the host it binds and the message it prints.
- `shutdown.dfy`, module `Shutdown`: the state machine on values. It has a `State`
  datatype, an `Event` per thing that can happen to the module, and `Step`/`Run`.
  A trace records the module's effects on the outside world: listen, flag set,
  close request, callback call, timer armed, request gated, exit. The invariant
  `Inv` of every reachable state is proved preserved by every step, and the
  properties of whole runs follow from it.
- `coordinator.dfy`, module `Graceful`: class `Coordinator`, whose fields are the
  module variables. Its methods update them in the source's order. Each method
  is proved to perform exactly one `Shutdown.Step` on the object's snapshot and to
  record that event in a ghost history. `Valid()` states that the object is the run of
  its history from load, so the invariant and the run properties of `Shutdown` apply
  to the object after any sequence of calls.

Three behaviours of the code are easy to miss, and the model keeps them:

- The close and timeout callbacks have no guard on the shutdown phase. Only one exit
  happens because `process.exit` does not return. The model states this by letting no
  event happen once an exit code is recorded.
- `start` has no guard against draining. Called after shutdown has begun, it still
  replaces the deadline and the callback and registers more handlers. This has no
  effect on a timer that is already armed.
- An options object without a `timeout` property gets the default of 1000, so each
  `start` without one resets the deadline to 1000. Only an explicit
  `timeout: undefined` fails the `typeof … === 'number'` test and keeps the previous
  deadline, because object spread copies a property whose value is `undefined`.

## Model

| member | source | states |
|---|---|---|
| `JsValues.Spread` | src/index.ts:59 | object spread keeps every key of both objects; the second object's properties, including ones set to `undefined`, override the first's |
| `JsValues.ShowNumber` | src/index.ts:61 | for integers below 10^21 in magnitude, a number's template-literal text is its decimal numeral, which reads back to the number, with a leading minus sign exactly when it is negative |
| `Options.Merge` | src/index.ts:48-51 | each merged field is the caller's property when the options have it, else the default; without options the merge is port 3000, timeout 1000, no host |
| `Options.NextTimeout` | src/index.ts:63 | the new deadline is the caller's timeout when it is a number; with no timeout property it is the default 1000; with `timeout: undefined` it stays the previous deadline |
| `Options.BindHost` | src/index.ts:71-75 | the listener is bound to the caller's host exactly when that host is truthy, otherwise without a host |
| `Options.ListeningMessage` | src/index.ts:61-75 | the message names `localhost` and the port when there is no truthy host; otherwise it names the host and the port and adds `(bound to host: <host>)` |
| `Shutdown.Gate` | src/index.ts:40-44 | a request is forwarded exactly when the flag is clear; otherwise the answer is status 502, `Connection: close`, body `Server is shutting down.` |
| `Shutdown.ShutdownMiddleware` | src/index.ts:46 | `shutdownMiddleware()` returns the same gate for every flag value |
| `Shutdown.InitInv` | src/index.ts:12-15 | the state at load time satisfies the invariant: flag clear, deadline 1000, no listener, no callback, no handlers, no effects |
| `Shutdown.FirstSignal` | src/index.ts:27-38 | the first run of a handler returns true and sets the flag. Its effects, in order: shutdown begun, one close request to the current listener, one callback call with the signal's name if a callback is set, one timer armed with the current deadline. Nothing else changes |
| `Shutdown.LaterSignal` | src/index.ts:27-28 | once the flag is set, a handler for any signal returns false and leaves the whole state unchanged |
| `Shutdown.StartEffects` | src/index.ts:58-78 | `start` records the deadline from the merged timeout, replaces the callback (by none if none is given) and takes the new listener. It registers exactly one more handler for each of SIGTERM and SIGINT and none for any other name. It leaves the flag and the exit code alone |
| `Shutdown.ExitCodes` | src/index.ts:17-25 | only the close callback (status 0) and the timer (status 1) record an exit code, and after either no event at all can happen |
| `Shutdown.StepInv` | src/index.ts:12-44 | every event keeps the invariant. Shutdown begins, close is requested and the timer is armed once each, exactly when the flag is set; the callback runs at most once; at most one exit, and it is the last effect. Effects keep the handler's order, and each request gets the gate's answer for whether shutdown began before it |
| `Shutdown.RunInv` | src/index.ts:12-44 | the invariant holds after any sequence of events |
| `Shutdown.RunSnoc` | src/index.ts:12-44 | one more enabled event extends a run by exactly one step |
| `Shutdown.RunExtends` | src/index.ts:12-32 | the flag is monotone, a recorded exit is final, and the effects so far stay the start of the trace after any sequence of events |
| `Shutdown.SignalBurst` | src/index.ts:27-38 | N >= 1 signals delivered while accepting have exactly the effect of the first: one shutdown, one close request, one timer |
| `Shutdown.Lifetime` | src/index.ts:17-44 | from load, any run has at most one shutdown, close request, timer, callback call and exit. The exit is the last effect. The gate forwards exactly the requests that come before the shutdown and answers every later one with the 502 rejection |
| `Shutdown.TwoSignalsThenDrained` | src/index.ts:7-44 | start without options, SIGTERM, SIGINT, a request, then the listener closes. The trace is listen on 3000, one shutdown for SIGTERM, one close request, one callback call with "SIGTERM", a timer of 1000, the request rejected, exit 0 |
| `Shutdown.DeadlineFirst` | src/index.ts:22-63 | with a 50 ms timeout, SIGINT, then the deadline: a timer of 50 is armed, the process exits with 1, and the listener's late close callback can no longer run |
| `Graceful.Coordinator.constructor` | src/index.ts:12-15 | the module variables start as the initial state, with an empty history |
| `Graceful.Coordinator.Reachable` | src/index.ts:12-44 | after any sequence of calls, the object satisfies the invariant of every reachable state |
| `Graceful.Coordinator.Start` | src/index.ts:58-78 | updates the variables as `start` does, in its order, and is exactly one `Start` step, keeping the object the run of its history |
| `Graceful.Coordinator.RegisterHandlers` | src/index.ts:77 | the `forEach` loop appends one handler per signal of the list, SIGTERM then SIGINT |
| `Graceful.Coordinator.HandleSignal` | src/index.ts:27-38 | the shutdown handler returns whether the flag was clear and is exactly one `Signal` step |
| `Graceful.Coordinator.HandleClose` | src/index.ts:17-20 | the close callback is exactly one `ListenerClosed` step: exit status 0 |
| `Graceful.Coordinator.HandleTimeout` | src/index.ts:22-25 | the timer callback is exactly one `TimerFired` step: exit status 1 |
| `Graceful.Coordinator.Middleware` | src/index.ts:40-44 | forwards exactly when the flag is clear; otherwise returns the 502 `Connection: close` rejection, and is one `Request` step |

## Left out

- Binding a socket and draining real connections (`app.listen`, `httpListener.close`). The listener is an identity that `app.listen` returns. A close is a recorded request, and its completion is a later `ListenerClosed` event.
- Graceful.Coordinator.Start: `start` always completes in the model (`Shutdown.StartStep`, `Shutdown.StartEffects`). `app.listen` throws synchronously for a port outside 0..65535 (for example `{port: 70000}` or `{port: -1}`). That throw comes after `start` has replaced the deadline and the callback, but before it assigns the listener or registers any handler. The model does not capture that partial update, and records a listener and both handlers for every port value.
- Real time. `setTimeout` is a recorded delay, and its firing is a `TimerFired` event that may come before or after the close callback. So the model does not decide the race of a zero deadline against an immediate close. It also does not model how the host clamps out-of-range delays.
- `process.exit` as an operating-system effect. It is a recorded exit code after which no event is enabled.
- Signal delivery through `process.on`. A delivery runs each handler registered for the signal, and the model treats each handler run as one `Signal` event.
- Logging through `debug` and `console.log`, and the `ready` message to a parent process. The listening message is computed but not printed.
- Express request and response objects. The middleware's outcome is a `GateResult`.
- JsValues.ShowNumber: the model's numbers are integers of any size, and each prints as a plain decimal numeral. JavaScript numbers are doubles, integers above 2^53 are not exact, and a template literal prints a number with |n| >= 10^21 in exponent form (`${1e21}` is `1e+21`). No port that `app.listen` accepts comes near that bound.
- Numbers are integers. Fractional numbers, `NaN`, `null`, booleans and other option values the TypeScript types exclude are not modelled.
- A callback that throws. The model assumes `onClose` returns, so a throw that would skip arming the timer is not captured.
