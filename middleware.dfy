/** The middleware chain (src/Middleware.ts): a handler sequence with a
    cursor, whose `handle` advances the cursor by one and then hands control
    to the handler it passed over. A handler continues the chain by calling
    `handle` on it again; it ends the run by returning or by throwing. */
module Middleware {
  import opened Shared

  /** The handlers a chain holds. `UpdateSettings` is the built-in handler
      the engine puts first in the tick chain; `User` is any handler the
      settings supply, told apart by a tag. */
  datatype Handler = UpdateSettings | User(tag: nat)

  /** What a handler does once invoked, after its writes to the context:
      call back into the chain, return, or throw. */
  datatype Reaction = Continue | Return | Throw(message: string)

  /** One invocation of a handler: the handler-owned fields of the context
      it leaves behind, and how it goes on. */
  datatype Step = Step(newSettings: map<string, int>, stateData: Option<map<string, string>>, reaction: Reaction)

  /** What the handler at each position of the chain does, given the context
      it sees. A handler that continues does so as its last act: it writes,
      then hands the rest of the run to the chain, and the run's result is
      its result. A handler that acts again after the rest of the run has
      settled, catches its rejection, or calls back into the chain twice is
      not described by a script. */
  type Script = (nat, ContextView) -> Step

  /** One handler invocation as observed: where, which handler, and the
      context it was handed. */
  datatype Call = Call(position: nat, handler: Handler, seen: ContextView)

  /** The end of a run: how it settled, the invocations in the order they
      happened, the context left behind, and where the cursor stands. */
  datatype RunResult = RunResult(outcome: Outcome, calls: seq<Call>, context: ContextView, offset: nat)

  /** The context after a handler has written its part of it. */
  function Apply(ctx: ContextView, step: Step): ContextView
  {
    ctx.(newSettings := step.newSettings, stateData := step.stateData)
  }

  /** How the handler recorded in `call` went on. */
  function ReactionOf(script: Script, call: Call): Reaction
  {
    script(call.position, call.seen).reaction
  }

  /** A run of `handle` on handlers `hs` from cursor `offset`: each handler
      invoked, from the cursor on, in chain order, each at most once. */
  function Run(hs: seq<Handler>, offset: nat, ctx: ContextView, script: Script): (r: RunResult)
    requires offset <= |hs|
    ensures offset <= r.offset <= |hs|
    ensures |r.calls| == r.offset - offset
    ensures forall i :: 0 <= i < |r.calls| ==>
              r.calls[i].position == offset + i && r.calls[i].handler == hs[offset + i]
    ensures offset == |hs| ==> r.outcome == Ok && r.context == ctx
    decreases |hs| - offset
  {
    if offset == |hs| then
      RunResult(Ok, [], ctx, offset)
    else
      var step := script(offset, ctx);
      var call := Call(offset, hs[offset], ctx);
      match step.reaction
      case Continue =>
        var rest := Run(hs, offset + 1, Apply(ctx, step), script);
        rest.(calls := [call] + rest.calls)
      case Return =>
        RunResult(Ok, [call], Apply(ctx, step), offset + 1)
      case Throw(message) =>
        RunResult(Err(HandlerError(message)), [call], Apply(ctx, step), offset + 1)
  }

  /** A run ends at the first handler that does not continue: every earlier
      handler continued, a run that stops short of the end was stopped by
      its last handler, and it rejects exactly when that handler threw. */
  lemma {:induction false} RunStopsAtFirstRefusal(hs: seq<Handler>, offset: nat, ctx: ContextView, script: Script)
    requires offset <= |hs|
    ensures var r := Run(hs, offset, ctx, script);
      (forall i :: 0 <= i < |r.calls| - 1 ==> ReactionOf(script, r.calls[i]) == Continue) &&
      (r.offset < |hs| ==> r.calls != [] && ReactionOf(script, r.calls[|r.calls| - 1]) != Continue) &&
      (r.outcome.Err? <==> r.calls != [] && ReactionOf(script, r.calls[|r.calls| - 1]).Throw?) &&
      (r.outcome.Err? ==> r.outcome.error == HandlerError(ReactionOf(script, r.calls[|r.calls| - 1]).message))
    decreases |hs| - offset
  {
    if offset < |hs| && script(offset, ctx).reaction == Continue {
      RunStopsAtFirstRefusal(hs, offset + 1, Apply(ctx, script(offset, ctx)), script);
    }
  }

  /** When every handler continues, the run invokes every handler from the
      cursor to the end, each exactly once and in order, resolves, and leaves
      the cursor at the end. */
  lemma {:induction false} RunAllContinue(hs: seq<Handler>, offset: nat, ctx: ContextView, script: Script)
    requires offset <= |hs|
    requires forall i, c :: offset <= i < |hs| ==> script(i, c).reaction == Continue
    ensures var r := Run(hs, offset, ctx, script);
      r.outcome == Ok && r.offset == |hs| &&
      |r.calls| == |hs| - offset &&
      forall i :: 0 <= i < |r.calls| ==> r.calls[i].handler == hs[offset + i]
    decreases |hs| - offset
  {
    if offset < |hs| {
      RunAllContinue(hs, offset + 1, Apply(ctx, script(offset, ctx)), script);
    }
  }

  /** Handlers write only their own part of the context, so every handler
      of a run sees the lifecycle state and the input the run started with,
      and the run leaves both as they were. */
  lemma {:induction false} RunKeepsEngineFields(hs: seq<Handler>, offset: nat, ctx: ContextView, script: Script)
    requires offset <= |hs|
    ensures var r := Run(hs, offset, ctx, script);
      (forall c :: c in r.calls ==> c.seen.runningState == ctx.runningState && c.seen.lastInput == ctx.lastInput) &&
      r.context.runningState == ctx.runningState && r.context.lastInput == ctx.lastInput
    decreases |hs| - offset
  {
    if offset < |hs| && script(offset, ctx).reaction == Continue {
      RunKeepsEngineFields(hs, offset + 1, Apply(ctx, script(offset, ctx)), script);
    }
  }

  /** The context is shared along the chain: the first handler sees the
      context the run started with, each later one sees what its
      predecessor left, and the run ends with what the last one left. */
  lemma {:induction false} RunThreadsContext(hs: seq<Handler>, offset: nat, ctx: ContextView, script: Script)
    requires offset <= |hs|
    ensures var r := Run(hs, offset, ctx, script);
      (r.calls != [] ==> r.calls[0].seen == ctx) &&
      (forall i :: 0 <= i < |r.calls| - 1 ==>
         r.calls[i + 1].seen == Apply(r.calls[i].seen, script(r.calls[i].position, r.calls[i].seen))) &&
      (r.calls != [] ==> r.context == Apply(r.calls[|r.calls| - 1].seen,
                                             script(r.calls[|r.calls| - 1].position, r.calls[|r.calls| - 1].seen)))
    decreases |hs| - offset
  {
    if offset < |hs| && script(offset, ctx).reaction == Continue {
      RunThreadsContext(hs, offset + 1, Apply(ctx, script(offset, ctx)), script);
    }
  }

  /** The form of the chain's constructor argument: an array, a single
      handler, or null. */
  datatype StackArgument = Many(handlers: seq<Handler>) | Single(handler: Handler) | Null

  /** `StackMiddleware`: the handler sequence and the cursor. */
  class StackMiddleware {
    const middlewares: seq<Handler>
    var offset: nat

    ghost predicate Valid()
      reads this
    {
      offset <= |middlewares|
    }

    constructor (stack: StackArgument)
      ensures Valid() && offset == 0
      ensures stack.Many? ==> middlewares == stack.handlers
      ensures stack.Single? ==> middlewares == [stack.handler]
      ensures stack.Null? ==> middlewares == []
    {
      match stack {
        case Many(handlers) => middlewares := handlers;
        case Single(handler) => middlewares := [handler];
        case Null => middlewares := [];
      }
      offset := 0;
    }

    /** Rewinds the cursor so the next run starts from the first handler. */
    method Reset()
      modifies this`offset
      ensures Valid() && offset == 0
    {
      offset := 0;
    }

    /** The handler under the cursor, or none once the chain is exhausted. */
    function Next(): (h: Option<Handler>)
      reads this
      ensures h.Some? <==> offset < |middlewares|
      ensures h.Some? ==> h.value == middlewares[offset]
    {
      if offset < |middlewares| then Some(middlewares[offset]) else None
    }

    /** Runs the handler under the cursor, if any: the cursor moves past it
        first, then the handler writes its part of the context and, when it
        continues, calls back into this chain. */
    method Handle(ctx: StateContext, script: Script) returns (outcome: Outcome, ghost calls: seq<Call>)
      requires Valid()
      modifies this`offset, ctx`newSettings, ctx`stateData
      ensures Valid()
      ensures RunResult(outcome, calls, ctx.View(), offset) == Run(middlewares, old(offset), old(ctx.View()), script)
      decreases |middlewares| - offset
    {
      var next := Next();
      if next.None? {
        return Ok, [];
      }
      var position := offset;
      offset := offset + 1;
      var seen := ctx.View();
      var step := script(position, seen);
      ctx.newSettings, ctx.stateData := step.newSettings, step.stateData;
      ghost var call := Call(position, next.value, seen);
      match step.reaction {
        case Continue =>
          ghost var rest;
          outcome, rest := Handle(ctx, script);
          calls := [call] + rest;
        case Return =>
          outcome, calls := Ok, [call];
        case Throw(message) =>
          outcome, calls := Err(HandlerError(message)), [call];
      }
    }
  }

  /** How a wrapped callback ends: it returns, or it throws. */
  datatype CallbackResult = Returned | Threw(message: string)

  /** One call of a wrapped callback: the handler-owned fields of the live
      context it leaves behind, and how it ends. */
  datatype CallbackEffect = CallbackEffect(newSettings: map<string, int>, stateData: Option<map<string, string>>, result: CallbackResult)

  /** How the adapter's promise settles for a callback result: it resolves
      when the callback returns and rejects with the callback's error when
      it throws. */
  function Settle(result: CallbackResult): (r: Outcome)
    ensures r == Ok <==> result.Returned?
    ensures r.Err? ==> r.error == HandlerError(result.message)
  {
    match result
    case Returned => Ok
    case Threw(message) => Err(HandlerError(message))
  }

  /** How the adapter goes on as a member of a chain: it never calls back
      into the chain itself, and throws exactly when its callback throws. */
  function AsReaction(result: CallbackResult): (re: Reaction)
    ensures re != Continue
    ensures Settle(result) == (if re.Throw? then Err(HandlerError(re.message)) else Ok)
  {
    match result
    case Returned => Return
    case Threw(message) => Throw(message)
  }

  /** What one invocation of an adapter wrapping `callback` does when it is
      handed the context `ctx`. */
  function AdapterStep(callback: ContextView -> CallbackEffect, ctx: ContextView): Step
  {
    var effect := callback(ctx);
    Step(effect.newSettings, effect.stateData, AsReaction(effect.result))
  }

  /** The script of a chain whose handler at position `i` is an adapter
      wrapping `callbacks[i]`. */
  function AdapterScript(callbacks: seq<ContextView -> CallbackEffect>): Script
  {
    (i: nat, c: ContextView) =>
      if i < |callbacks| then AdapterStep(callbacks[i], c)
      else Step(c.newSettings, c.stateData, Return)
  }

  /** `CallbackMiddleware`: adapts a callback to the handler contract. The
      callback is given the context only; the `stack` argument, which the
      engine fills with itself rather than with a chain, is not passed. */
  class CallbackMiddleware {
    const callback: ContextView -> CallbackEffect

    constructor (callback: ContextView -> CallbackEffect)
      ensures this.callback == callback
    {
      this.callback := callback;
    }

    /** Calls the callback once on the live context: the context keeps the
        callback's writes, and the call settles as `Settle` says. */
    method Handle(ctx: StateContext) returns (r: Outcome)
      modifies ctx`newSettings, ctx`stateData
      ensures var effect := callback(old(ctx.View()));
        ctx.View() == old(ctx.View()).(newSettings := effect.newSettings, stateData := effect.stateData) &&
        r == Settle(effect.result)
    {
      var effect := callback(ctx.View());
      ctx.newSettings, ctx.stateData := effect.newSettings, effect.stateData;
      match effect.result {
        case Returned => r := Ok;
        case Threw(message) => r := Err(HandlerError(message));
      }
    }
  }

  /** A chain of callback adapters runs only the handler under the cursor:
      the run makes that one call, leaves the context as the callback left
      it, moves the cursor by one, and settles as the adapter's own promise
      does. */
  lemma AdapterChainRunsOnlyFirst(hs: seq<Handler>, callbacks: seq<ContextView -> CallbackEffect>, offset: nat, ctx: ContextView)
    requires offset < |hs| == |callbacks|
    ensures var r := Run(hs, offset, ctx, AdapterScript(callbacks));
      var effect := callbacks[offset](ctx);
      r.calls == [Call(offset, hs[offset], ctx)] && r.offset == offset + 1 &&
      r.context == ctx.(newSettings := effect.newSettings, stateData := effect.stateData) &&
      r.outcome == Settle(effect.result)
  {
    var step := AdapterScript(callbacks)(offset, ctx);
    assert step == AdapterStep(callbacks[offset], ctx);
    assert step.reaction == AsReaction(callbacks[offset](ctx).result);
  }

  /** A client of the chain: a chain of three handlers that all continue
      runs them in order, and runs them all again after a reset; when the
      second one throws, the third is not run. */
  method ChainScenario(ctx: StateContext)
    modifies ctx`newSettings, ctx`stateData
  {
    var chain := new StackMiddleware(Many([User(0), User(1), User(2)]));
    var continueAll: Script := (i: nat, c: ContextView) => Step(c.newSettings, c.stateData, Continue);
    var outcome;
    ghost var calls;
    outcome, calls := chain.Handle(ctx, continueAll);
    RunAllContinue(chain.middlewares, 0, old(ctx.View()), continueAll);
    assert outcome == Ok && |calls| == 3 && chain.offset == 3;
    assert calls[0].handler == User(0) && calls[1].handler == User(1) && calls[2].handler == User(2);

    chain.Reset();
    ghost var again := ctx.View();
    outcome, calls := chain.Handle(ctx, continueAll);
    RunAllContinue(chain.middlewares, 0, again, continueAll);
    assert outcome == Ok && |calls| == 3 && calls[2].handler == User(2);

    chain.Reset();
    var failAtOne: Script := (i: nat, c: ContextView) => Step(c.newSettings, c.stateData, if i == 1 then Throw("B") else Continue);
    outcome, calls := chain.Handle(ctx, failAtOne);
    assert outcome == Err(HandlerError("B"));
    assert |calls| == 2 && chain.offset == 2;
  }
}
