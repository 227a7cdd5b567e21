/** `Runner<DATA>`: the main loop with fixed-step updates, one draw per
    iteration and frame pacing, and `exec`, which brackets the loop with the
    engine's and the user's initialisation and release. Time is given from
    outside: each iteration reads the clock as a `FrameClock`. */
module Runner {
  import opened EngineTypes

  /** `updateMs`: the simulation step in milliseconds. */
  const UpdateMs: nat := 8

  /** One update step in `stm_now` ticks (nanoseconds): `updateMs * 1000000`. */
  const UpdateTicks: nat := 8 * 1000000

  /** `frameMs = 1000 / 100`: the shortest iteration the loop lets pass. */
  const FrameMs: nat := 1000 / 100

  /** Which of the user callbacks in `RunParams` are set. */
  datatype RunParams = RunParams(hasInit: bool, hasUpdate: bool, hasDraw: bool, hasRelease: bool, hasEvent: bool)

  /** What one iteration reads from outside: the number of pending SDL
      events, `stm_now()` before the catch-up, and the iteration's duration
      `dt` in whole milliseconds when it is measured before pacing. */
  datatype FrameClock = FrameClock(pending: nat, now: int, dtMs: u32)

  /** What the loop does that is visible to the user or the window. The
      update and draw callbacks receive `elapsed()`, which is
      `elapsedTicks / 100000.0`. */
  datatype LoopEvent =
    | Event
    | Update(elapsedTicks: int, step: u32, updateMs: nat)
    | DrawFrame(elapsedTicks: int)
    | Swap
    | Delay(ms: nat)

  /** The catch-up loop's result: the update tick, the step counter and the
      update callbacks issued. */
  datatype CatchUpResult = CatchUpResult(tick: int, step: u32, updates: seq<LoopEvent>)

  /** The catch-up loop `while (updateTick < currentTick)` from `tick` and
      `step`: each round advances the tick by one step, increments the step
      counter (wrapping as `unsigned int`) and runs the update callback
      when there is one. */
  function CatchUpSpec(p: RunParams, startTick: int, tick: int, step: u32, now: int): (r: CatchUpResult)
    decreases now - tick
  {
    if tick >= now then CatchUpResult(tick, step, [])
    else
      var t := tick + UpdateTicks;
      var s := AddWrap(step, 1);
      var rest := CatchUpSpec(p, startTick, t, s, now);
      CatchUpResult(rest.tick, rest.step,
                    (if p.hasUpdate then [Update(t - startTick, s, UpdateMs)] else []) + rest.updates)
  }

  /** Reference count of catch-up rounds: the fewest whole steps that bring
      `tick` to at least `now`. */
  function UpdateCount(tick: int, now: int): (r: nat)
  {
    if tick >= now then 0 else (now - tick + UpdateTicks - 1) / UpdateTicks
  }

  /** The delay `SDL_Delay(frameMs - dt)` that pacing adds, if any. */
  function Pacing(dtMs: u32): (r: seq<LoopEvent>)
    ensures r == [] <==> dtMs as int >= FrameMs
    ensures r != [] ==> |r| == 1 && r[0].Delay? && dtMs as int + r[0].ms == FrameMs
  {
    if (dtMs as int) < FrameMs then [Delay(FrameMs - dtMs as int)] else []
  }

  /** The event callbacks for `n` polled events. */
  function Polls(n: nat): (r: seq<LoopEvent>)
    ensures |r| == n
    ensures forall k :: 0 <= k < |r| ==> r[k] == Event
  {
    if n == 0 then [] else Polls(n - 1) + [Event]
  }

  /** The loop's variables between iterations: `updateTick`, `step`,
      `frame`, and the events so far. */
  datatype LoopState = LoopState(updateTick: int, step: u32, frame: u32, trace: seq<LoopEvent>)

  /** One iteration of `while (!SDL_QuitRequested())`: poll events, catch up
      the simulation, draw, swap, pace. */
  function Iteration(p: RunParams, startTick: int, st: LoopState, c: FrameClock): (r: LoopState)
    ensures r.frame as int == (st.frame as int + 1) % 0x1_0000_0000
  {
    var cu := CatchUpSpec(p, startTick, st.updateTick, st.step, c.now);
    LoopState(cu.tick, cu.step, AddWrap(st.frame, 1), st.trace + IterationEvents(p, startTick, st, c))
  }

  /** The events of one iteration, in order. */
  function IterationEvents(p: RunParams, startTick: int, st: LoopState, c: FrameClock): (r: seq<LoopEvent>)
  {
    var polled := if p.hasEvent then Polls(c.pending) else [];
    var cu := CatchUpSpec(p, startTick, st.updateTick, st.step, c.now);
    var drawn := if p.hasDraw then [DrawFrame(cu.tick - startTick)] else [];
    polled + cu.updates + drawn + [Swap] + Pacing(c.dtMs)
  }

  /** The loop over the clock readings `clock`, one per iteration, from the
      start tick `startTick`; quitting is requested after the last one. */
  function LoopRun(p: RunParams, startTick: int, clock: seq<FrameClock>): (r: LoopState)
    decreases |clock|
  {
    if clock == [] then LoopState(startTick, 0, 0, [])
    else Iteration(p, startTick, LoopRun(p, startTick, clock[..|clock| - 1]), clock[|clock| - 1])
  }

  /** The catch-up loop of `Runner::loop`. */
  method CatchUp(p: RunParams, startTick: int, tick0: int, step0: u32, now: int)
    returns (tick: int, step: u32, updates: seq<LoopEvent>)
    ensures CatchUpResult(tick, step, updates) == CatchUpSpec(p, startTick, tick0, step0, now)
  {
    tick, step, updates := tick0, step0, [];
    while tick < now
      invariant var rest := CatchUpSpec(p, startTick, tick, step, now);
        CatchUpSpec(p, startTick, tick0, step0, now) == CatchUpResult(rest.tick, rest.step, updates + rest.updates)
      decreases now - tick
    {
      ghost var rest := CatchUpSpec(p, startTick, tick + UpdateTicks, AddWrap(step, 1), now);
      tick := tick + UpdateTicks;
      step := AddWrap(step, 1);
      var u := if p.hasUpdate then [Update(tick - startTick, step, UpdateMs)] else [];
      assert updates + (u + rest.updates) == (updates + u) + rest.updates;
      updates := updates + u;
    }
  }

  /** The event polling at the top of an iteration: every pending event is
      handed to the event callback, when there is one. */
  method Poll(p: RunParams, pending: nat, trace0: seq<LoopEvent>) returns (trace: seq<LoopEvent>)
    ensures trace == trace0 + (if p.hasEvent then Polls(pending) else [])
  {
    trace := trace0;
    var k := 0;
    while k < pending
      invariant 0 <= k <= pending
      invariant trace == trace0 + (if p.hasEvent then Polls(k) else [])
    {
      if p.hasEvent {
        trace := trace + [Event];
      }
      k := k + 1;
    }
  }

  /** One iteration of the loop body on the loop's variables. */
  method Iterate(p: RunParams, startTick: int, st: LoopState, c: FrameClock) returns (next: LoopState)
    ensures next == Iteration(p, startTick, st, c)
  {
    var trace := Poll(p, c.pending, []);
    var updateTick, step, updates := CatchUp(p, startTick, st.updateTick, st.step, c.now);
    trace := trace + updates;
    var frame := AddWrap(st.frame, 1);
    if p.hasDraw {
      trace := trace + [DrawFrame(updateTick - startTick)];
    }
    trace := trace + [Swap];
    if (c.dtMs as int) < FrameMs {
      trace := trace + [Delay(FrameMs - c.dtMs as int)];
    }
    next := LoopState(updateTick, step, frame, st.trace + trace);
  }

  /** `Runner::loop`: returns the events it caused and its status. */
  method Loop(p: RunParams, startTick: int, clock: seq<FrameClock>) returns (trace: seq<LoopEvent>, status: int)
    ensures trace == LoopRun(p, startTick, clock).trace
    ensures status == 0
  {
    var st := LoopState(startTick, 0, 0, []);
    var i := 0;
    while i < |clock|
      invariant 0 <= i <= |clock|
      invariant st == LoopRun(p, startTick, clock[..i])
    {
      assert clock[..i + 1][..i] == clock[..i];
      st := Iterate(p, startTick, st, clock[i]);
      i := i + 1;
    }
    assert clock[..i] == clock;
    return st.trace, 0;
  }

  /** What `exec` does, in order. */
  datatype LifeEvent = EngineInit | UserInit | Looped(e: LoopEvent) | UserRelease | EngineRelease

  function Lift(t: seq<LoopEvent>): (r: seq<LifeEvent>)
    ensures |r| == |t|
    ensures forall k :: 0 <= k < |t| ==> r[k] == Looped(t[k])
  {
    if t == [] then [] else Lift(t[..|t| - 1]) + [Looped(t[|t| - 1])]
  }

  /** The events of one `exec` run whose loop caused `looped`. */
  function ExecTrace(p: RunParams, looped: seq<LoopEvent>): (r: seq<LifeEvent>)
    ensures |r| == 2 + (if p.hasInit then 1 else 0) + |looped| + (if p.hasRelease then 1 else 0)
    ensures r[0] == EngineInit && r[|r| - 1] == EngineRelease
    ensures p.hasInit ==> r[1] == UserInit
    ensures p.hasRelease ==> r[|r| - 2] == UserRelease
    ensures forall k :: 0 <= k < |looped| ==> r[k + 1 + (if p.hasInit then 1 else 0)] == Looped(looped[k])
  {
    [EngineInit] + (if p.hasInit then [UserInit] else []) + Lift(looped)
      + (if p.hasRelease then [UserRelease] else []) + [EngineRelease]
  }

  /** `Runner::exec`: the engine's `Init`, the user's init, the loop, the
      user's release, the engine's `Release`; the status is always 0 (the
      results of `Init` and of the callbacks are not looked at). */
  method Exec(p: RunParams, startTick: int, clock: seq<FrameClock>) returns (trace: seq<LifeEvent>, status: int)
    ensures trace == ExecTrace(p, LoopRun(p, startTick, clock).trace)
    ensures status == 0
  {
    var initialised := if p.hasInit then [UserInit] else [];
    var loopTrace, loopStatus := Loop(p, startTick, clock);
    var released := if p.hasRelease then [UserRelease] else [];
    trace := [EngineInit] + initialised + Lift(loopTrace) + released + [EngineRelease];
    status := 0;
  }
}
