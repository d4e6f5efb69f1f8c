# Game-loop engine core in Dafny

This project models the core of a small game-loop engine written in
TypeScript. It has three stateful pieces:

- **The middleware chain** (`StackMiddleware`, module `Middleware`). It is a
  handler sequence plus a cursor. `handle` moves the cursor past the handler
  under it and then hands control to that handler. A handler continues the
  chain by calling `handle` again, or ends the run by returning or throwing.
  The `CallbackMiddleware` adapter turns a callback into a handler.
- **The tick loop** (`TickLoop`, module `Loop`). A timer id of 0 means
  disarmed. `start`, `stop` and `updateInterval` arm and disarm the loop.
  `tick` runs the tick chain once and then rewinds it.
- **The engine** (`Engine`, module `GameEngine`). It holds the lifecycle
  state (`Uninitialized`, `Running`, `Paused`, `Stopped`) and the guarded
  `start`, `pause`, `resume` and `stop`. It owns three chains (start, input
  and tick), the shared context, and the tick loop.

Module `Shared` holds the types all three use. These are the lifecycle
state, the input payload, the error kinds, how a call settles, and the
context object.

The handlers are abstract. For each chain run, a `Script` says what the
handler at each position does with the context it sees. It gives the
handler's writes to its own part of the context (`newSettings`,
`stateData`). It also says whether the handler continues the chain, returns
or throws. A continuing handler is taken to continue as its last act: the
rest of the run settles the handler's own promise. Handlers that do more
after the rest of the run settles are listed under "Left out". The pure function
`Middleware.Run` specifies a run. `StackMiddleware.Handle` is proved to
compute it, re-entering itself when a handler continues. The engine's
methods state their effect through `Run`. Lemmas about `Run` give the order,
uniqueness, stopping and context-sharing properties. The lifecycle is also
given as a pure transition function, `GameEngine.Lifecycle`. Lemmas over
sequences of operations prove that `Stopped` is absorbing and that `start`
is accepted at most once.

Async operations are modelled as sequential calls. A timer id is a
parameter (`TimerId`, a positive number), because the timer API hands it
out.

### Behaviour of the code worth knowing

- The settings carry an optional start state (`startState`,
  src/Settings.ts:9), but it never reaches the context. `validateSettings`
  returns no `startState`, and the constructor starts the context's
  `stateData` absent (src/Engine.ts:34, 121-128). `Engine.constructor`
  states this.
- The engine defines a default interval, `DEFAULT_TICK_INTERVAL_MS` = 20
  (src/Engine.ts:14), and `validateSettings` applies it (src/Engine.ts:127).
  The constructor then hands the tick loop the raw `settings.tickInterval`
  (src/Engine.ts:41), so the defaulted value is discarded. For an engine
  built without an interval, `start` never arms the tick loop. A later
  `updateInterval` with a non-zero interval does arm it.
- A handler's signature is `handle(context, stack)` (src/Middleware.ts:4),
  so the second argument is meant to be a chain to continue. But the engine
  passes itself: it calls `handle(context, engine, chain)` with three
  arguments (src/Engine.ts:47, 64; src/TickLoop.ts:26 does the same), and
  `StackMiddleware.handle` takes two (src/Middleware.ts:33). So the `stack`
  that every handler of the start, input and tick chains receives is the
  engine, which has no `handle`. Calling `stack.handle(...)` from such a
  handler throws instead of continuing. In the engine's own chains, a
  handler can go on to the next one only if it reaches the chain object
  some other way. Otherwise a run that resolves invokes only the handler
  under the cursor. The model's `Continue` allows the general case, so its
  engine runs cover more than the engine can do. Callback adapters never
  continue (`AdapterChainRunsOnlyFirst`).
- When an input handler fails, `input` skips the rest of its body. The
  input chain is not rewound, no tick happens, and the context is not
  cleared. The next `input` resumes the chain at the handler after the one
  that failed. `Engine.Input` states this.
- The start chain runs before the context's lifecycle field is refreshed.
  So its handlers see `Uninitialized` although the engine is already
  `Running` (src/Engine.ts:62-64).
- The only guard of `pause` is "not stopped" (src/Engine.ts:75), so `pause`
  is accepted from `Uninitialized` as well as from `Running` and `Paused`.
  The only guard of `stop` is "not already stopped" (src/Engine.ts:85), so
  `stop` is accepted from `Uninitialized` too.

## Model

| member | source | states |
|---|---|---|
| `Middleware.Run` | src/Middleware.ts:33-43 | A run from cursor `offset` invokes handlers at consecutive positions starting at the cursor, each the chain's handler at that position, each at most once. The cursor ends past the last one invoked and never beyond the end. An exhausted chain resolves without invoking anything or touching the context. |
| `Middleware.RunStopsAtFirstRefusal` | src/Middleware.ts:33-43 | Every handler but the last one invoked continued the chain. A run that stops before the end was stopped by its last handler. The run rejects exactly when that handler threw, and with its error. So no handler after a non-continuing one is invoked. |
| `Middleware.RunAllContinue` | src/Middleware.ts:33-43 | If every handler continues, the run invokes all handlers from the cursor to the end, each once and in order. It resolves, and the cursor ends at the chain's length. |
| `Middleware.RunKeepsEngineFields` | src/Middleware.ts:42 | Each handler is handed the same context, and handlers write only their own part of it. So every handler of a run sees the lifecycle state and input the run started with, and the run leaves both unchanged. |
| `Middleware.RunThreadsContext` | src/Middleware.ts:42 | The first handler sees the context the run started with. Each later handler sees what its predecessor left. The run ends with what the last handler left. |
| `Middleware.StackMiddleware.constructor` | src/Middleware.ts:21-27 | An array argument becomes the handler sequence, a single handler becomes a one-element sequence, and null gives an empty chain. The cursor starts at 0. |
| `Middleware.StackMiddleware.Reset` | src/Middleware.ts:29-31 | The cursor goes back to 0. The handler sequence is unchanged, because it is a constant. |
| `Middleware.StackMiddleware.Next` | src/Middleware.ts:45-47 | Gives the handler under the cursor when the cursor is before the end, and none otherwise. |
| `Middleware.StackMiddleware.Handle` | src/Middleware.ts:33-43 | Its result, the calls it makes, the context it leaves and its new cursor equal `Run` from the old cursor and context. So the cursor advances by one before each handler is invoked, and stays in range. |
| `Middleware.CallbackMiddleware.constructor` | src/Middleware.ts:53-55 | The adapter keeps the callback it is given. |
| `Middleware.Settle` | src/Middleware.ts:58-65 | The adapter's promise resolves exactly when the callback returns, and rejects with the callback's error exactly when it throws. |
| `Middleware.AsReaction` | src/Middleware.ts:57-66 | As a member of a chain, the adapter never continues the chain. It throws exactly when its promise, as `Settle` gives it, rejects, and with the same error. |
| `Middleware.CallbackMiddleware.Handle` | src/Middleware.ts:57-66 | Applies the callback once to the live context: the context afterwards is the old one with the callback's writes to `newSettings` and `stateData`, and nothing else changes. The call settles as `Settle` gives for the callback's result. |
| `Middleware.AdapterChainRunsOnlyFirst` | src/Middleware.ts:33-66 | In a chain of callback adapters (`AdapterScript`), a run invokes exactly the adapter under the cursor, moves the cursor by one, leaves the context as that callback left it, and settles as that adapter's own `Handle` does. |
| `Loop.TickLoop.constructor` | src/TickLoop.ts:11-15 | A new loop is disarmed (id 0), keeps the given interval and chain, and has no context yet. |
| `Loop.TickLoop.Tick` | src/TickLoop.ts:25-29 | Runs the tick chain from its cursor (result and context as `Run` gives them), then rewinds the cursor to 0 whether the run resolved or rejected. |
| `Loop.TickLoop.Start` | src/TickLoop.ts:31-43 | Throws and keeps the id while armed. With interval 0 it returns and stays disarmed. Otherwise it returns armed with the fresh positive id. |
| `Loop.TickLoop.Stop` | src/TickLoop.ts:45-48 | Always ends disarmed, so a second call changes nothing. |
| `Loop.TickLoop.UpdateInterval` | src/TickLoop.ts:50-54 | Stores the new interval and never throws. It ends armed exactly when the new interval is not 0, whether or not the loop was armed before, so it can re-arm a stopped loop. |
| `GameEngine.Lifecycle` | src/Engine.ts:57-102 | `start` is accepted exactly from `Uninitialized`, `resume` exactly from `Paused`, and `pause` and `stop` exactly from anything but `Stopped`. `input` has no guard and keeps the state. Nothing moves out of `Stopped`, and nothing moves back into `Uninitialized`. |
| `GameEngine.StoppedIsAbsorbing` | src/Engine.ts:44-115 | Any sequence of operations from `Stopped` ends in `Stopped`. |
| `GameEngine.NeverUninitializedAgain` | src/Engine.ts:57-102 | Once an engine has left `Uninitialized`, no sequence of operations brings it back. |
| `GameEngine.StartAcceptedAtMostOnce` | src/Engine.ts:57-62 | In any sequence of operations, at most one `start` is accepted, and none unless the engine was still uninitialized. |
| `GameEngine.TickSeesEngineState` | src/Engine.ts:104-115 | A stopped engine's tick runs no handler and leaves the context alone. Otherwise every tick handler sees the engine's current lifecycle state in the context. |
| `GameEngine.DefaultTickMiddlewares` | src/Engine.ts:131-135 | The built-in tick handlers are the settings handler, once, and nothing else. |
| `GameEngine.Engine.ValidateSettings` | src/Engine.ts:117-135 | Builds three fresh, distinct, rewound chains. Missing slots become empty chains. The tick chain is the built-in settings handler followed by the user's tick handlers, in order. The interval it returns defaults to 20. |
| `GameEngine.Engine.constructor` | src/Engine.ts:27-42 | A new engine is uninitialized, with an empty context whose state data is absent. Its chains are built as `ValidateSettings` builds them. Its tick loop is disarmed and holds the raw interval of the settings, not the defaulted one. |
| `GameEngine.Engine.Input` | src/Engine.ts:44-55 | Never changes the lifecycle state. Every input handler sees the given input. If the input chain rejects, the call rejects there: the cursor stays where the chain stopped and the context is not cleared. Otherwise the input chain is rewound and the engine ticks. If the tick resolves, the input is cleared and the requested settings emptied. |
| `GameEngine.Engine.Start` | src/Engine.ts:57-69 | Throws, changing nothing, unless uninitialized. Otherwise the state becomes `Running` and the start chain runs from 0. If the start chain rejects, the call rejects with the tick loop disarmed. If it resolves, the start chain is rewound, the loop is armed exactly when the interval is not 0, and the engine ticks. |
| `GameEngine.Engine.Pause` | src/Engine.ts:74-82 | Throws, changing nothing, exactly when stopped. Otherwise, `Uninitialized` included, the state becomes `Paused` and the engine ticks. |
| `GameEngine.Engine.Stop` | src/Engine.ts:84-92 | Throws, changing nothing, when already stopped. Otherwise the state becomes `Stopped` and the tick loop is disarmed. |
| `GameEngine.Engine.Resume` | src/Engine.ts:94-102 | Throws, changing nothing, unless paused. Otherwise the state becomes `Running` and the engine ticks. |
| `GameEngine.Engine.Tick` | src/Engine.ts:104-115 | Does nothing when stopped. Otherwise it copies the lifecycle state into the context, hands the context to the tick loop, and runs the tick chain from position 0, so every tick handler sees the engine's state. |

`Engine.Valid()`, which every engine method keeps, says the following. The
three chains are distinct and their cursors are in range. The tick loop
drives the engine's own tick chain on the engine's own context. The
built-in handler comes first in the tick chain. The tick chain is rewound
between ticks. The tick loop is disarmed before the start and after the
stop.

## Left out

- Timer mechanics. Real `setInterval`/`clearInterval` and the timer firing
  `tick` on schedule are not modelled. A timer id is a positive parameter,
  and a disarm sets it to 0.
- Async interleaving. Every call runs to completion before the next
  statement. `TickLoop.tick` rewinds the cursor without awaiting the run
  (src/TickLoop.ts:26-27), so an async handler could be rewound mid-run.
  That is not captured.
- `Middleware.CallbackMiddleware.Handle`: the callback's second argument,
  `stack` (src/Middleware.ts:51, 60), is not modelled, and neither is a
  callback that returns a promise which `resolve(result)` then takes on.
  "Only the callback's writes change the context, and the call settles as
  the callback ends" holds for a callback that does not call
  `stack.handle(...)`. That is always the case when the engine runs the
  chain, because there `stack` is the engine (src/Engine.ts:47, 64;
  src/TickLoop.ts:26). A chain handed itself as `stack` whose callback
  calls `stack.handle(...)` runs on past the adapter, and this is not
  captured.
- `Middleware.AsReaction`, `Middleware.AdapterChainRunsOnlyFirst`: "the
  adapter never continues the chain" and "a chain of adapters runs only the
  adapter under the cursor" hold only when `stack` is not the chain, which
  is how the engine calls its chains. In
  `c = new StackMiddleware([new CallbackMiddleware((x, s) => s.handle(x, s)), new CallbackMiddleware(() => {})])`,
  `c.handle(ctx, c)` runs both callbacks. The model's callbacks do not
  receive `stack`, so this case is not modelled.
- `Middleware.RunStopsAtFirstRefusal`, `Middleware.RunThreadsContext`:
  "the run rejects exactly when the last handler threw", "every handler but
  the last continued" and "the run ends with what the last handler left"
  hold only for handlers that continue as their last act. A handler that
  awaits `stack.handle(...)` and then writes, throws or catches the
  rejection, or calls `handle` twice, is not modelled.
- Handler bodies. They are abstract (`Script`), and their writes are limited
  to `newSettings` and `stateData`. A handler that calls the engine's public
  methods (test.ts stops the engine from an input handler) or writes
  other context fields is not modelled.
- `Engine.Input`: "the lifecycle state is unchanged" holds only for handlers
  that do not call back into the engine.
- `UpdateSettingsMiddleware` and the `StateContext` type are not part of
  this model, because neither is defined in the files modelled. The
  built-in handler is an opaque `UpdateSettings` entry at the head of the
  tick chain. Its interval update is not invented.
- `GameEngine.Engine.Start`: the tick loop's "already started" error is not
  passed on. `Valid()` keeps the loop disarmed until the start, so the model
  cannot reach it. In the source, the tick loop is a public field
  (src/Engine.ts:21), so any caller can arm it (`tickLoop.start()` or
  `tickLoop.updateInterval(...)`) before `start`. The built-in handler's
  unmodelled interval update during an early tick can do the same. `start`
  then runs the start chain and throws at `tickLoop.start()`
  (src/Engine.ts:64-67). `Valid()` excludes that state, and direct calls on
  the engine's tick loop are not modelled.
- `Loop.TickLoop.Tick`: a synchronous throw from a handler's `handle` and a
  rejected promise are one outcome, `Err`. In the source, a synchronous
  throw escapes `tick` before `reset()` runs (src/TickLoop.ts:26-27), so
  the cursor stays advanced and the next tick resumes mid-chain. The model
  always rewinds, and `Engine.Valid()`'s "tick chain rewound between
  ticks" holds only for handlers that never throw synchronously. In the
  async `start` and `input` the two kinds of failure behave alike, so the
  merge loses nothing there.
- `Loop.TickLoop.Tick`: requires a context to have been set. The source
  would hand `undefined` to the handlers. The engine always sets the
  context before ticking.
- Aliasing of the settings arrays. `validateSettings` prepends to the
  caller's own tick array (src/Engine.ts:119), and a chain keeps the array
  it is given (src/Middleware.ts:23). The model copies sequences. So
  building a second engine from the same settings object, which would put
  the built-in handler in twice, is not captured.
- Nested chains. A `StackMiddleware` used as a handler inside another chain
  is not modelled. Handlers are `UpdateSettings` or tagged user handlers.
- The engine reference passed to handlers is not modelled.
- JavaScript falsiness and values. A missing interval is modelled as 0
  (both are falsy where `start` tests them), and NaN is not modelled. Input
  record values and state data values are strings. `next()` returning null
  for a hole in the handler array is not modelled.
- Error messages. Only the kind of error is kept, plus the current state
  that the start error reports.
- src/TickStrategy.ts is a callback wrapper the engine does not use.
  src/Settings.ts holds only types; their shape is the `Settings`
  datatype. test.ts is process wiring (stdin, console).
