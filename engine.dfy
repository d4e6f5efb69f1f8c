/** The engine (src/Engine.ts): the lifecycle state machine, the three
    middleware chains it owns (start, input, tick) and the tick loop it
    drives. Asynchronous operations are modelled as sequential calls; what
    the handlers of a chain do is given by a `Script` per run, and a timer
    id by a parameter. */
module GameEngine {
  import opened Shared
  import opened Middleware
  import opened Loop

  /** The interval the settings fall back to (`DEFAULT_TICK_INTERVAL_MS`). */
  const DefaultTickIntervalMs: int := 20

  /** The handler arrays of the settings; each may be missing. */
  datatype Middlewares = Middlewares(start: Option<seq<Handler>>, input: Option<seq<Handler>>, tick: Option<seq<Handler>>)

  /** The settings an engine is built from (src/Settings.ts); a missing
      `tickInterval` is `None`. */
  datatype Settings = Settings(
    tickInterval: Option<int>,
    startState: Option<map<string, string>>,
    middlewares: Option<Middlewares>)

  datatype Slot = StartSlot | InputSlot | TickSlot

  /** The handlers the settings give for one chain, or none when the
      middlewares or that slot are missing. */
  function UserHandlers(settings: Settings, slot: Slot): seq<Handler>
  {
    match settings.middlewares
    case None => []
    case Some(m) =>
      var given := match slot
        case StartSlot => m.start
        case InputSlot => m.input
        case TickSlot => m.tick;
      match given
      case None => []
      case Some(hs) => hs
  }

  /** The interval exactly as the settings give it. A missing interval is
      falsy like 0 where the tick loop tests it, so it is modelled as 0. */
  function RawInterval(settings: Settings): int
  {
    match settings.tickInterval
    case None => 0
    case Some(ms) => ms
  }

  /** The handlers always put in front of the user's tick handlers: the
      built-in settings handler, once, and nothing else. */
  function DefaultTickMiddlewares(): (hs: seq<Handler>)
    ensures |hs| == 1 && hs[0].UpdateSettings?
  {
    [UpdateSettings]
  }

  // ----- The lifecycle as a state machine -----

  /** The public operations, as far as the lifecycle is concerned. */
  datatype Request = StartRequest | PauseRequest | ResumeRequest | StopRequest | InputRequest

  /** A guarded transition: the state moved to, or the error thrown with
      the state left as it was. */
  datatype Transition = Moved(next: RunningState) | Refused(error: Error)

  /** The guard and target state of each operation. */
  function Lifecycle(req: Request, s: RunningState): (t: Transition)
    ensures req == InputRequest ==> t == Moved(s)
    ensures t.Moved? && t.next == Uninitialized ==> s == Uninitialized
    ensures s == Stopped ==> t.Refused? || t.next == Stopped
    ensures req == StartRequest ==> (t.Moved? <==> s == Uninitialized)
    ensures req == ResumeRequest ==> (t.Moved? <==> s == Paused)
    ensures req == PauseRequest || req == StopRequest ==> (t.Refused? <==> s == Stopped)
  {
    match req
    case StartRequest => if s == Uninitialized then Moved(Running) else Refused(EngineAlreadyStarted(s))
    case PauseRequest => if s == Stopped then Refused(PauseWhileStopped) else Moved(Paused)
    case ResumeRequest => if s == Paused then Moved(Running) else Refused(ResumeWhenNotPaused)
    case StopRequest => if s == Stopped then Refused(AlreadyStopped) else Moved(Stopped)
    case InputRequest => Moved(s)
  }

  /** The state after one request, whether it was accepted or refused. */
  function After(req: Request, s: RunningState): RunningState
  {
    match Lifecycle(req, s)
    case Moved(next) => next
    case Refused(_) => s
  }

  /** The state after a sequence of requests. */
  function Replay(reqs: seq<Request>, s: RunningState): RunningState
    decreases |reqs|
  {
    if reqs == [] then s else Replay(reqs[1..], After(reqs[0], s))
  }

  /** How many requests of a sequence are starts that are accepted. */
  function StartsAccepted(reqs: seq<Request>, s: RunningState): nat
    decreases |reqs|
  {
    if reqs == [] then 0
    else (if reqs[0] == StartRequest && Lifecycle(StartRequest, s).Moved? then 1 else 0)
         + StartsAccepted(reqs[1..], After(reqs[0], s))
  }

  /** Once stopped, an engine stays stopped whatever is asked of it. */
  lemma {:induction false} StoppedIsAbsorbing(reqs: seq<Request>)
    ensures Replay(reqs, Stopped) == Stopped
    decreases |reqs|
  {
    if reqs != [] {
      StoppedIsAbsorbing(reqs[1..]);
    }
  }

  /** No operation leads back to the uninitialized state. */
  lemma {:induction false} NeverUninitializedAgain(reqs: seq<Request>, s: RunningState)
    requires s != Uninitialized
    ensures Replay(reqs, s) != Uninitialized
    decreases |reqs|
  {
    if reqs != [] {
      NeverUninitializedAgain(reqs[1..], After(reqs[0], s));
    }
  }

  /** In any sequence of operations at most one start is accepted, and none
      unless the engine was still uninitialized. */
  lemma {:induction false} StartAcceptedAtMostOnce(reqs: seq<Request>, s: RunningState)
    ensures StartsAccepted(reqs, s) <= (if s == Uninitialized then 1 else 0)
    decreases |reqs|
  {
    if reqs != [] {
      var s' := After(reqs[0], s);
      StartAcceptedAtMostOnce(reqs[1..], s');
      if s' == Uninitialized {
        assert reqs[0] != StartRequest;
      } else {
        NeverUninitializedAgain(reqs[1..], s');
      }
    }
  }

  // ----- The engine -----

  /** What the engine's private `tick` does: nothing once stopped, and
      otherwise a run of the tick chain from its first handler on a context
      whose lifecycle field has been refreshed. */
  function TickRun(state: RunningState, ctx: ContextView, hs: seq<Handler>, script: Script): RunResult
  {
    if state == Stopped then RunResult(Ok, [], ctx, 0)
    else Run(hs, 0, ctx.(runningState := state), script)
  }

  /** A stopped engine runs no tick handler; otherwise every tick handler
      sees the engine's current lifecycle state in the context. */
  lemma TickSeesEngineState(state: RunningState, ctx: ContextView, hs: seq<Handler>, script: Script)
    ensures var t := TickRun(state, ctx, hs, script);
      (state == Stopped ==> t.calls == [] && t.outcome == Ok && t.context == ctx) &&
      (forall c :: c in t.calls ==> c.seen.runningState == state) &&
      t.context.runningState == (if state == Stopped then ctx.runningState else state)
  {
    if state != Stopped {
      RunKeepsEngineFields(hs, 0, ctx.(runningState := state), script);
    }
  }

  class Engine {
    var runningState: RunningState
    const stateContext: StateContext
    const tickLoop: TickLoop
    const startMiddlewares: StackMiddleware
    const inputMiddlewares: StackMiddleware
    const tickMiddlewares: StackMiddleware

    /** The engine's invariant: three distinct chains with cursors in range,
        the tick loop driving the engine's own tick chain on the engine's
        own context, the built-in handler first in the tick chain, the tick
        chain rewound between ticks, and the tick loop disarmed before the
        start and after the stop. */
    ghost predicate Valid()
      reads this, tickLoop, startMiddlewares, inputMiddlewares, tickMiddlewares
    {
      startMiddlewares != inputMiddlewares && startMiddlewares != tickMiddlewares &&
      inputMiddlewares != tickMiddlewares &&
      startMiddlewares.Valid() && inputMiddlewares.Valid() && tickMiddlewares.Valid() &&
      tickLoop.tickMiddlewares == tickMiddlewares &&
      (tickLoop.context == null || tickLoop.context == stateContext) &&
      |tickMiddlewares.middlewares| > 0 && tickMiddlewares.middlewares[0] == UpdateSettings &&
      tickMiddlewares.offset == 0 &&
      (runningState == Uninitialized ==> startMiddlewares.offset == 0 && tickLoop.intervalId == 0) &&
      (runningState == Stopped ==> tickLoop.intervalId == 0)
    }

    /** Builds the three chains from the settings (missing slots give empty
        chains, the tick chain gets the built-in handler in front) and
        computes the defaulted interval, which the constructor then does not
        use. */
    static method ValidateSettings(settings: Settings)
      returns (start: StackMiddleware, input: StackMiddleware, tick: StackMiddleware, tickInterval: int)
      ensures fresh(start) && fresh(input) && fresh(tick)
      ensures start != input && start != tick && input != tick
      ensures start.Valid() && input.Valid() && tick.Valid()
      ensures start.offset == 0 && input.offset == 0 && tick.offset == 0
      ensures start.middlewares == UserHandlers(settings, StartSlot)
      ensures input.middlewares == UserHandlers(settings, InputSlot)
      ensures tick.middlewares == DefaultTickMiddlewares() + UserHandlers(settings, TickSlot)
      ensures tickInterval == (if settings.tickInterval.Some? then settings.tickInterval.value else DefaultTickIntervalMs)
    {
      var tickHandlers := DefaultTickMiddlewares() + UserHandlers(settings, TickSlot);
      start := new StackMiddleware(Many(UserHandlers(settings, StartSlot)));
      input := new StackMiddleware(Many(UserHandlers(settings, InputSlot)));
      tick := new StackMiddleware(Many(tickHandlers));
      tickInterval := match settings.tickInterval
        case None => DefaultTickIntervalMs
        case Some(ms) => ms;
    }

    /** A new engine is uninitialized, with an empty context whose state
        data is absent (the start state of the settings is not carried
        over), rewound chains, and a disarmed tick loop holding the raw
        interval of the settings rather than the defaulted one. */
    constructor (settings: Settings)
      ensures Valid()
      ensures fresh(stateContext) && fresh(tickLoop)
      ensures fresh(startMiddlewares) && fresh(inputMiddlewares) && fresh(tickMiddlewares)
      ensures runningState == Uninitialized
      ensures stateContext.View() == ContextView(Uninitialized, NoInput, map[], None)
      ensures startMiddlewares.middlewares == UserHandlers(settings, StartSlot)
      ensures inputMiddlewares.middlewares == UserHandlers(settings, InputSlot)
      ensures tickMiddlewares.middlewares == [UpdateSettings] + UserHandlers(settings, TickSlot)
      ensures startMiddlewares.offset == 0 && inputMiddlewares.offset == 0
      ensures tickLoop.tickIntervalInMs == RawInterval(settings)
      ensures tickLoop.intervalId == 0 && tickLoop.context == null
    {
      var start, input, tick, _ := ValidateSettings(settings);
      runningState := Uninitialized;
      stateContext := new StateContext(ContextView(Uninitialized, NoInput, map[], None));
      startMiddlewares := start;
      inputMiddlewares := input;
      tickMiddlewares := tick;
      tickLoop := new TickLoop(tick, RawInterval(settings));
    }

    /** Sets the input, runs the input chain from its cursor, rewinds it,
        ticks, then clears the input and the requested settings. A handler
        failure skips everything after it, so the input chain is then left
        where it stopped and the context is not cleared. The input has no
        guard and never changes the lifecycle state. */
    method Input(input: IncomingInput, inputScript: Script, tickScript: Script) returns (r: Outcome)
      requires Valid()
      modifies stateContext, tickLoop`context, inputMiddlewares`offset, tickMiddlewares`offset
      ensures Valid()
      ensures runningState == After(InputRequest, old(runningState)) == old(runningState)
      ensures var inputRun := Run(inputMiddlewares.middlewares, old(inputMiddlewares.offset),
                                  old(stateContext.View()).(lastInput := input), inputScript);
        (forall c :: c in inputRun.calls ==> c.seen.lastInput == input) &&
        (inputRun.outcome.Err? ==>
           r == inputRun.outcome && inputMiddlewares.offset == inputRun.offset &&
           stateContext.View() == inputRun.context) &&
        (inputRun.outcome.Ok? ==>
           inputMiddlewares.offset == 0 &&
           var tickRun := TickRun(runningState, inputRun.context, tickMiddlewares.middlewares, tickScript);
           r == tickRun.outcome &&
           (tickRun.outcome.Err? ==> stateContext.View() == tickRun.context) &&
           (tickRun.outcome.Ok? ==>
              stateContext.View() == tickRun.context.(lastInput := NoInput, newSettings := map[])))
    {
      ghost var before := stateContext.View().(lastInput := input);
      stateContext.lastInput := input;
      ghost var calls;
      r, calls := inputMiddlewares.Handle(stateContext, inputScript);
      RunKeepsEngineFields(inputMiddlewares.middlewares, old(inputMiddlewares.offset), before, inputScript);
      if r.Err? {
        return;
      }
      inputMiddlewares.Reset();
      r := Tick(tickScript);
      if r.Err? {
        return;
      }
      stateContext.newSettings := map[];
      stateContext.lastInput := NoInput;
    }

    /** Accepted only from `Uninitialized`: the state becomes `Running`, the
        start chain runs and is rewound, the tick loop is armed with `timer`
        (unless the interval is 0) and the engine ticks. From any other
        state it throws and changes nothing. A start handler failure leaves
        the engine running with the start chain where it stopped and the
        tick loop disarmed. */
    method Start(startScript: Script, tickScript: Script, timer: TimerId) returns (r: Outcome)
      requires Valid()
      modifies this`runningState, stateContext, tickLoop`context, tickLoop`intervalId,
               startMiddlewares`offset, tickMiddlewares`offset
      ensures Valid()
      ensures runningState == After(StartRequest, old(runningState))
      ensures old(runningState) != Uninitialized ==>
        r == Err(EngineAlreadyStarted(old(runningState))) &&
        unchanged(stateContext) && unchanged(tickLoop) && startMiddlewares.offset == old(startMiddlewares.offset)
      ensures old(runningState) == Uninitialized ==>
        runningState == Running &&
        var startRun := Run(startMiddlewares.middlewares, 0, old(stateContext.View()), startScript);
        (startRun.outcome.Err? ==>
           r == startRun.outcome && startMiddlewares.offset == startRun.offset &&
           tickLoop.intervalId == 0 && stateContext.View() == startRun.context) &&
        (startRun.outcome.Ok? ==>
           startMiddlewares.offset == 0 &&
           (tickLoop.intervalId > 0 <==> tickLoop.tickIntervalInMs != 0) &&
           (tickLoop.tickIntervalInMs != 0 ==> tickLoop.intervalId == timer) &&
           var tickRun := TickRun(Running, startRun.context, tickMiddlewares.middlewares, tickScript);
           r == tickRun.outcome && stateContext.View() == tickRun.context)
    {
      if runningState != Uninitialized {
        return Err(EngineAlreadyStarted(runningState));
      }
      runningState := Running;
      ghost var calls;
      r, calls := startMiddlewares.Handle(stateContext, startScript);
      if r.Err? {
        return;
      }
      startMiddlewares.Reset();
      var armed := tickLoop.Start(timer);
      assert armed == Ok;
      r := Tick(tickScript);
    }

    /** Throws when stopped and changes nothing; from any other state,
        `Uninitialized` included, the state becomes `Paused` and the engine
        ticks. */
    method Pause(tickScript: Script) returns (r: Outcome)
      requires Valid()
      modifies this`runningState, stateContext, tickLoop`context, tickMiddlewares`offset
      ensures Valid()
      ensures runningState == After(PauseRequest, old(runningState))
      ensures old(runningState) == Stopped ==>
        r == Err(PauseWhileStopped) && unchanged(stateContext) && unchanged(tickLoop)
      ensures old(runningState) != Stopped ==>
        runningState == Paused &&
        var tickRun := TickRun(Paused, old(stateContext.View()), tickMiddlewares.middlewares, tickScript);
        r == tickRun.outcome && stateContext.View() == tickRun.context
    {
      if runningState == Stopped {
        return Err(PauseWhileStopped);
      }
      runningState := Paused;
      r := Tick(tickScript);
    }

    /** Throws when already stopped; otherwise the state becomes `Stopped`
        and the tick loop is disarmed. */
    method Stop() returns (r: Outcome)
      requires Valid()
      modifies this`runningState, tickLoop`intervalId
      ensures Valid()
      ensures runningState == After(StopRequest, old(runningState))
      ensures old(runningState) == Stopped ==> r == Err(AlreadyStopped) && unchanged(tickLoop)
      ensures old(runningState) != Stopped ==> r == Ok && runningState == Stopped && tickLoop.intervalId == 0
    {
      if runningState == Stopped {
        return Err(AlreadyStopped);
      }
      runningState := Stopped;
      tickLoop.Stop();
      r := Ok;
    }

    /** Throws unless paused, changing nothing; from `Paused` the state
        becomes `Running` and the engine ticks. */
    method Resume(tickScript: Script) returns (r: Outcome)
      requires Valid()
      modifies this`runningState, stateContext, tickLoop`context, tickMiddlewares`offset
      ensures Valid()
      ensures runningState == After(ResumeRequest, old(runningState))
      ensures old(runningState) != Paused ==>
        r == Err(ResumeWhenNotPaused) && unchanged(stateContext) && unchanged(tickLoop)
      ensures old(runningState) == Paused ==>
        runningState == Running &&
        var tickRun := TickRun(Running, old(stateContext.View()), tickMiddlewares.middlewares, tickScript);
        r == tickRun.outcome && stateContext.View() == tickRun.context
    {
      if runningState != Paused {
        return Err(ResumeWhenNotPaused);
      }
      runningState := Running;
      r := Tick(tickScript);
    }

    /** Does nothing once stopped. Otherwise copies the lifecycle state into
        the context, hands the context to the tick loop and ticks it. */
    method Tick(script: Script) returns (r: Outcome)
      requires Valid()
      modifies stateContext, tickLoop`context, tickMiddlewares`offset
      ensures Valid()
      ensures runningState == Stopped ==> unchanged(stateContext) && unchanged(tickLoop)
      ensures runningState != Stopped ==> tickLoop.context == stateContext
      ensures var tickRun := TickRun(runningState, old(stateContext.View()), tickMiddlewares.middlewares, script);
        r == tickRun.outcome && stateContext.View() == tickRun.context
    {
      if runningState == Stopped {
        return Ok;
      }
      stateContext.runningState := runningState;
      tickLoop.context := stateContext;
      r := tickLoop.Tick(script);
    }
  }

  /** A client of the engine: an interval of 1000 ms, no start or tick
      handlers of its own, and one input handler that echoes a text input
      into the state data. */
  method EngineScenario()
  {
    var echo: Script := (i: nat, c: ContextView) =>
      Step(c.newSettings, Some(map["echo" := if c.lastInput.Text? then c.lastInput.text else ""]), Return);
    var quiet: Script := (i: nat, c: ContextView) => Step(c.newSettings, c.stateData, Return);
    var settings := Settings(Some(1000), None, Some(Middlewares(Some([]), Some([User(0)]), Some([]))));
    var engine := new Engine(settings);
    assert engine.tickMiddlewares.middlewares == [UpdateSettings];

    var r := engine.Start(quiet, quiet, 7);
    assert r == Ok && engine.runningState == Running && engine.tickLoop.intervalId == 7;

    r := engine.Input(Text("ping"), echo, quiet);
    assert r == Ok;
    assert engine.stateContext.stateData == Some(map["echo" := "ping"]);
    assert engine.stateContext.lastInput == NoInput;

    r := engine.Stop();
    assert engine.runningState == Stopped && engine.tickLoop.intervalId == 0;
    r := engine.Resume(quiet);
    assert r == Err(ResumeWhenNotPaused) && engine.runningState == Stopped;

    // The input chain has no guard and still runs once stopped; the tick
    // that follows does nothing.
    r := engine.Input(Text("late"), echo, quiet);
    assert r == Ok && engine.runningState == Stopped;
    assert engine.stateContext.stateData == Some(map["echo" := "late"]);
  }
}
