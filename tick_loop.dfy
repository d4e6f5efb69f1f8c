/** The timer-driven tick loop (src/TickLoop.ts). The timer is abstract: a
    timer id is a positive number the timer API hands out when the loop is
    armed, and 0 means the loop is disarmed. */
module Loop {
  import opened Shared
  import opened Middleware

  /** An id as returned by the timer API when a repeating timer is set up. */
  type TimerId = n: nat | 0 < n witness 1

  class TickLoop {
    var intervalId: nat                // 0: disarmed
    var tickIntervalInMs: int          // 0: ticks only on request
    var context: StateContext?         // null until the engine first ticks
    const tickMiddlewares: StackMiddleware

    /** A new loop is disarmed and keeps the interval it was given. The
        context passed to the source's constructor is not stored there, so
        the loop starts without one. */
    constructor (tickMiddlewares: StackMiddleware, intervalInMs: int)
      ensures this.tickMiddlewares == tickMiddlewares
      ensures intervalId == 0 && tickIntervalInMs == intervalInMs && context == null
    {
      this.tickMiddlewares := tickMiddlewares;
      intervalId := 0;
      tickIntervalInMs := intervalInMs;
      context := null;
    }

    /** One tick: runs the tick chain from its cursor, then rewinds the
        cursor whether the run resolved or rejected. */
    method Tick(script: Script) returns (outcome: Outcome)
      requires tickMiddlewares.Valid() && context != null
      modifies tickMiddlewares`offset, context`newSettings, context`stateData
      ensures tickMiddlewares.Valid() && tickMiddlewares.offset == 0
      ensures var run := Run(tickMiddlewares.middlewares, old(tickMiddlewares.offset), old(context.View()), script);
        outcome == run.outcome && context.View() == run.context
    {
      ghost var calls;
      outcome, calls := tickMiddlewares.Handle(context, script);
      tickMiddlewares.Reset();
    }

    /** Arms the loop with the timer id `timer`. Throws, changing nothing,
        when the loop is already armed; with interval 0 it returns and the
        loop stays disarmed, so ticks happen only when the engine asks. */
    method Start(timer: TimerId) returns (r: Outcome)
      modifies this`intervalId
      ensures old(intervalId) > 0 ==> r == Err(TickLoopAlreadyStarted) && intervalId == old(intervalId)
      ensures old(intervalId) == 0 ==> r == Ok
      ensures old(intervalId) == 0 && tickIntervalInMs == 0 ==> intervalId == 0
      ensures old(intervalId) == 0 && tickIntervalInMs != 0 ==> intervalId == timer
    {
      if intervalId > 0 {
        return Err(TickLoopAlreadyStarted);
      }
      if tickIntervalInMs == 0 {
        return Ok;
      }
      intervalId := timer;
      r := Ok;
    }

    /** Cancels the timer; the loop is disarmed afterwards whatever it was
        before, so calling it twice is the same as calling it once. */
    method Stop()
      modifies this`intervalId
      ensures intervalId == 0
    {
      intervalId := 0;
    }

    /** Stores the new interval, then stops and restarts the loop: it never
        throws, and it leaves the loop armed exactly when the new interval
        is not 0, whether or not it was armed before. */
    method UpdateInterval(newIntervalInMs: int, timer: TimerId)
      modifies this`intervalId, this`tickIntervalInMs
      ensures tickIntervalInMs == newIntervalInMs
      ensures intervalId > 0 <==> newIntervalInMs != 0
      ensures newIntervalInMs != 0 ==> intervalId == timer
    {
      tickIntervalInMs := newIntervalInMs;
      Stop();
      var r := Start(timer);
      assert r == Ok;
    }
  }
}
