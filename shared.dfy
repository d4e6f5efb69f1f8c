/** Types shared by the middleware chain, the tick loop and the engine:
    the lifecycle state, the input payload, the error kinds, how an
    operation settles, and the mutable context every handler receives. */
module Shared {

  datatype Option<T> = None | Some(value: T)

  /** The engine's lifecycle state (`RunningState` in src/Engine.ts). */
  datatype RunningState = Uninitialized | Running | Paused | Stopped

  /** An external input: a record, a plain string, or null. Record values
      are modelled as strings. */
  datatype IncomingInput = NoInput | Text(text: string) | Record(fields: map<string, string>)

  /** Every way an operation of the core can throw or reject. The message
      texts of the source are not modelled, only which error it is and the
      state the start error reports. */
  datatype Error =
    | HandlerError(message: string)          // a handler threw or rejected
    | TickLoopAlreadyStarted                 // TickLoop.start while armed
    | EngineAlreadyStarted(current: RunningState)
    | PauseWhileStopped
    | AlreadyStopped
    | ResumeWhenNotPaused

  /** How a call ends: it returns (or its promise resolves), or it throws
      (or its promise rejects). */
  datatype Outcome = Ok | Err(error: Error)

  /** A snapshot of the context's fields. */
  datatype ContextView = ContextView(
    runningState: RunningState,
    lastInput: IncomingInput,
    newSettings: map<string, int>,
    stateData: Option<map<string, string>>)

  /** The one context object the engine creates and every handler of every
      chain receives and may mutate in place. */
  class StateContext {
    var runningState: RunningState
    var lastInput: IncomingInput
    var newSettings: map<string, int>
    var stateData: Option<map<string, string>>

    constructor (view: ContextView)
      ensures View() == view
    {
      runningState := view.runningState;
      lastInput := view.lastInput;
      newSettings := view.newSettings;
      stateData := view.stateData;
    }

    function View(): ContextView
      reads this
    {
      ContextView(runningState, lastInput, newSettings, stateData)
    }
  }
}
