/** Properties of `Runner::loop`: the catch-up loop in closed form, the
    counts of each kind of event over a whole run, and the timing facts the
    fixed-step design rests on. */
module RunnerProperties {
  import opened EngineTypes
  import opened Runner

  /** The kinds of loop event, for counting. */
  datatype Kind = EventKind | UpdateKind | DrawKind | SwapKind | DelayKind

  function KindOf(e: LoopEvent): (r: Kind)
  {
    match e
    case Event => EventKind
    case Update(_, _, _) => UpdateKind
    case DrawFrame(_) => DrawKind
    case Swap => SwapKind
    case Delay(_) => DelayKind
  }

  /** The number of events of kind `k` in `t`. */
  function Count(t: seq<LoopEvent>, k: Kind): (r: nat)
  {
    if t == [] then 0 else Count(t[..|t| - 1], k) + (if KindOf(t[|t| - 1]) == k then 1 else 0)
  }

  lemma {:induction false} CountAppend(a: seq<LoopEvent>, b: seq<LoopEvent>, k: Kind)
    ensures Count(a + b, k) == Count(a, k) + Count(b, k)
    decreases |b|
  {
    if b == [] {
      assert a + b == a;
    } else {
      assert (a + b)[..|a + b| - 1] == a + b[..|b| - 1];
      CountAppend(a, b[..|b| - 1], k);
    }
  }

  /** A sequence of events all of one kind counts its length in that kind
      and nothing in the others. */
  lemma {:induction false} CountUniform(t: seq<LoopEvent>, k: Kind, other: Kind)
    requires forall i :: 0 <= i < |t| ==> KindOf(t[i]) == k
    ensures Count(t, k) == |t|
    ensures other != k ==> Count(t, other) == 0
    decreases |t|
  {
    if t != [] {
      CountUniform(t[..|t| - 1], k, other);
    }
  }

  lemma AddWrapAdd(x: u32, a: nat, b: nat)
    ensures AddWrap(AddWrap(x, a), b) == AddWrap(x, a + b)
  {
  }

  lemma WrapChain(s: u32, a: nat, b: nat, s2: u32, n: nat)
    requires s == AddWrap(0, a) && s2 == AddWrap(s, b) && n == a + b
    ensures s2 == AddWrap(0, n)
  {
    AddWrapAdd(0, a, b);
  }

  /** One more round of catch-up is one fewer round still to run. */
  lemma UpdateCountStep(tick: int, now: int)
    requires tick < now
    ensures UpdateCount(tick, now) == UpdateCount(tick + UpdateTicks, now) + 1
  {
    var d := now - tick;
    assert (d + UpdateTicks - 1) / UpdateTicks == (d - 1) / UpdateTicks + 1;
  }

  /** The catch-up loop runs exactly `UpdateCount` rounds: the tick moves by
      that many whole steps, the step counter by that many (modulo 2^32),
      and that many update callbacks are issued when there is an update
      callback. */
  lemma {:induction false} CatchUpCounts(p: RunParams, startTick: int, tick: int, step: u32, now: int)
    ensures CatchUpSpec(p, startTick, tick, step, now).tick == tick + UpdateCount(tick, now) * UpdateTicks
    ensures CatchUpSpec(p, startTick, tick, step, now).step == AddWrap(step, UpdateCount(tick, now))
    ensures |CatchUpSpec(p, startTick, tick, step, now).updates| == (if p.hasUpdate then UpdateCount(tick, now) else 0)
    decreases now - tick
  {
    if tick < now {
      CatchUpCounts(p, startTick, tick + UpdateTicks, AddWrap(step, 1), now);
      UpdateCountStep(tick, now);
      AddWrapAdd(step, 1, UpdateCount(tick + UpdateTicks, now));
    }
  }

  /** After the catch-up the update tick is at or past `now`, and it is the
      first step boundary that is: one step earlier it was still behind.
      A tick already at or past `now` is left alone. */
  lemma {:induction false} CatchUpCaughtUp(p: RunParams, startTick: int, tick: int, step: u32, now: int)
    ensures CatchUpSpec(p, startTick, tick, step, now).tick >= now
    ensures CatchUpSpec(p, startTick, tick, step, now).tick >= tick
    ensures tick < now ==> CatchUpSpec(p, startTick, tick, step, now).tick - UpdateTicks < now
    ensures tick >= now ==> CatchUpSpec(p, startTick, tick, step, now).tick == tick
    decreases now - tick
  {
    if tick < now {
      CatchUpCaughtUp(p, startTick, tick + UpdateTicks, AddWrap(step, 1), now);
    }
  }

  /** The `k`-th update callback of a catch-up sees the tick after `k + 1`
      steps, measured from the start tick, and the step counter after `k + 1`
      increments; without an update callback nothing is issued. */
  lemma {:induction false} CatchUpUpdates(p: RunParams, startTick: int, tick: int, step: u32, now: int)
    ensures !p.hasUpdate ==> CatchUpSpec(p, startTick, tick, step, now).updates == []
    ensures forall k :: 0 <= k < |CatchUpSpec(p, startTick, tick, step, now).updates| ==>
              CatchUpSpec(p, startTick, tick, step, now).updates[k]
                == Update(tick + (k + 1) * UpdateTicks - startTick, AddWrap(step, k + 1), UpdateMs)
    decreases now - tick
  {
    if tick < now {
      var t := tick + UpdateTicks;
      var s := AddWrap(step, 1);
      CatchUpUpdates(p, startTick, t, s, now);
      var rest := CatchUpSpec(p, startTick, t, s, now).updates;
      forall k | 1 <= k < |CatchUpSpec(p, startTick, tick, step, now).updates|
        ensures CatchUpSpec(p, startTick, tick, step, now).updates[k]
                == Update(tick + (k + 1) * UpdateTicks - startTick, AddWrap(step, k + 1), UpdateMs)
      {
        assert CatchUpSpec(p, startTick, tick, step, now).updates[k] == rest[k - 1];
        AddWrapAdd(step, 1, k);
      }
    }
  }

  /** Every event the catch-up issues is an update. */
  lemma CatchUpOnlyUpdates(p: RunParams, startTick: int, tick: int, step: u32, now: int)
    ensures forall i :: 0 <= i < |CatchUpSpec(p, startTick, tick, step, now).updates| ==>
              KindOf(CatchUpSpec(p, startTick, tick, step, now).updates[i]) == UpdateKind
  {
    CatchUpUpdates(p, startTick, tick, step, now);
  }

  lemma CountSegments(polled: seq<LoopEvent>, updates: seq<LoopEvent>, drawn: seq<LoopEvent>,
                       pacing: seq<LoopEvent>, k: Kind)
    ensures Count(polled + updates + drawn + [Swap] + pacing, k)
         == Count(polled, k) + Count(updates, k) + Count(drawn, k) + Count([Swap], k) + Count(pacing, k)
  {
    CountAppend(polled, updates, k);
    CountAppend(polled + updates, drawn, k);
    CountAppend(polled + updates + drawn, [Swap], k);
    CountAppend(polled + updates + drawn + [Swap], pacing, k);
  }

  lemma PolledCount(p: RunParams, n: nat, k: Kind)
    ensures Count(if p.hasEvent then Polls(n) else [], k) == (if p.hasEvent && k == EventKind then n else 0)
  {
    if p.hasEvent {
      CountUniform(Polls(n), EventKind, k);
    }
  }

  lemma UpdatesCount(p: RunParams, startTick: int, tick: int, step: u32, now: int, k: Kind)
    ensures Count(CatchUpSpec(p, startTick, tick, step, now).updates, k)
         == (if p.hasUpdate && k == UpdateKind then UpdateCount(tick, now) else 0)
  {
    CatchUpOnlyUpdates(p, startTick, tick, step, now);
    CatchUpCounts(p, startTick, tick, step, now);
    CountUniform(CatchUpSpec(p, startTick, tick, step, now).updates, UpdateKind, k);
  }

  lemma SingleCount(e: LoopEvent, k: Kind)
    ensures Count([e], k) == (if KindOf(e) == k then 1 else 0)
  {
    assert [e][..0] == [];
  }

  lemma PacingCount(dtMs: u32, k: Kind)
    ensures Count(Pacing(dtMs), k) == (if k == DelayKind then |Pacing(dtMs)| else 0)
  {
    if Pacing(dtMs) != [] {
      SingleCount(Pacing(dtMs)[0], k);
      assert Pacing(dtMs) == [Pacing(dtMs)[0]];
    }
  }

  /** The count of a kind in one iteration is the sum of its counts in the
      iteration's segments. */
  lemma IterationSegmentCounts(p: RunParams, startTick: int, st: LoopState, c: FrameClock, k: Kind)
    ensures var cu := CatchUpSpec(p, startTick, st.updateTick, st.step, c.now);
      Count(IterationEvents(p, startTick, st, c), k)
      == Count(if p.hasEvent then Polls(c.pending) else [], k) + Count(cu.updates, k)
       + Count(if p.hasDraw then [DrawFrame(cu.tick - startTick)] else [], k)
       + Count([Swap], k) + Count(Pacing(c.dtMs), k)
  {
    var polled := if p.hasEvent then Polls(c.pending) else [];
    var cu := CatchUpSpec(p, startTick, st.updateTick, st.step, c.now);
    var drawn := if p.hasDraw then [DrawFrame(cu.tick - startTick)] else [];
    assert IterationEvents(p, startTick, st, c) == polled + cu.updates + drawn + [Swap] + Pacing(c.dtMs);
    CountSegments(polled, cu.updates, drawn, Pacing(c.dtMs), k);
  }

  /** The counts of each kind of event in one iteration: one per polled
      event when there is an event callback, one update per catch-up round
      when there is an update callback, one draw when there is a draw
      callback, one swap, and at most one delay. */
  lemma IterationCounts(p: RunParams, startTick: int, st: LoopState, c: FrameClock, k: Kind)
    ensures Count(IterationEvents(p, startTick, st, c), k)
         == (if p.hasEvent && k == EventKind then c.pending else 0)
          + (if p.hasUpdate && k == UpdateKind then UpdateCount(st.updateTick, c.now) else 0)
          + (if p.hasDraw && k == DrawKind then 1 else 0)
          + (if k == SwapKind then 1 else 0)
          + (if k == DelayKind then |Pacing(c.dtMs)| else 0)
  {
    var cu := CatchUpSpec(p, startTick, st.updateTick, st.step, c.now);
    IterationSegmentCounts(p, startTick, st, c, k);
    PolledCount(p, c.pending, k);
    UpdatesCount(p, startTick, st.updateTick, st.step, c.now, k);
    if p.hasDraw {
      SingleCount(DrawFrame(cu.tick - startTick), k);
    }
    SingleCount(Swap, k);
    PacingCount(c.dtMs, k);
  }

  /** One iteration's events begin with the polled event callbacks and end
      with the swap followed by the pacing delay, and the loop's log keeps
      what was there before them. */
  lemma IterationShape(p: RunParams, startTick: int, st: LoopState, c: FrameClock)
    ensures var r := IterationEvents(p, startTick, st, c);
      |r| > |Pacing(c.dtMs)| &&
      r[|r| - |Pacing(c.dtMs)| - 1] == Swap && r[|r| - |Pacing(c.dtMs)|..] == Pacing(c.dtMs) &&
      (p.hasEvent ==> |r| >= c.pending && r[..c.pending] == Polls(c.pending))
    ensures st.trace < Iteration(p, startTick, st, c).trace
  {
    var polled := if p.hasEvent then Polls(c.pending) else [];
    var cu := CatchUpSpec(p, startTick, st.updateTick, st.step, c.now);
    var drawn := if p.hasDraw then [DrawFrame(cu.tick - startTick)] else [];
    var head := polled + cu.updates + drawn;
    var r := IterationEvents(p, startTick, st, c);
    assert r == head + [Swap] + Pacing(c.dtMs);
    assert r[|head|] == Swap;
    assert r[..|head| + 1] == head + [Swap];
    if p.hasEvent {
      assert head[..c.pending] == polled;
    }
  }

  /** The events of a run of `n + 1` iterations are those of the first `n`
      followed by those of the last. */
  lemma LoopRunCount(p: RunParams, startTick: int, clock: seq<FrameClock>, k: Kind)
    requires clock != []
    ensures Count(LoopRun(p, startTick, clock).trace, k)
         == Count(LoopRun(p, startTick, clock[..|clock| - 1]).trace, k)
          + Count(IterationEvents(p, startTick, LoopRun(p, startTick, clock[..|clock| - 1]), clock[|clock| - 1]), k)
  {
    var before := LoopRun(p, startTick, clock[..|clock| - 1]);
    CountAppend(before.trace, IterationEvents(p, startTick, before, clock[|clock| - 1]), k);
  }

  /** Over a whole run: one swap per iteration, and one draw per iteration
      when there is a draw callback. */
  lemma {:induction false} LoopRunSwapsAndDraws(p: RunParams, startTick: int, clock: seq<FrameClock>)
    ensures Count(LoopRun(p, startTick, clock).trace, SwapKind) == |clock|
    ensures Count(LoopRun(p, startTick, clock).trace, DrawKind) == (if p.hasDraw then |clock| else 0)
    decreases |clock|
  {
    if clock != [] {
      var before := LoopRun(p, startTick, clock[..|clock| - 1]);
      var c := clock[|clock| - 1];
      LoopRunSwapsAndDraws(p, startTick, clock[..|clock| - 1]);
      LoopRunCount(p, startTick, clock, SwapKind);
      LoopRunCount(p, startTick, clock, DrawKind);
      IterationCounts(p, startTick, before, c, SwapKind);
      IterationCounts(p, startTick, before, c, DrawKind);
    }
  }

  /** The number of events pending over all the iterations of `clock`. */
  function TotalPending(clock: seq<FrameClock>): (r: nat)
  {
    if clock == [] then 0 else TotalPending(clock[..|clock| - 1]) + clock[|clock| - 1].pending
  }

  /** Over a whole run: every pending event reaches the event callback when
      there is one, no update is issued without an update callback, and at
      most one delay is taken per iteration. */
  lemma {:induction false} LoopRunCallbacks(p: RunParams, startTick: int, clock: seq<FrameClock>)
    ensures Count(LoopRun(p, startTick, clock).trace, EventKind) == (if p.hasEvent then TotalPending(clock) else 0)
    ensures !p.hasUpdate ==> Count(LoopRun(p, startTick, clock).trace, UpdateKind) == 0
    ensures Count(LoopRun(p, startTick, clock).trace, DelayKind) <= |clock|
    decreases |clock|
  {
    if clock != [] {
      var before := LoopRun(p, startTick, clock[..|clock| - 1]);
      var c := clock[|clock| - 1];
      LoopRunCallbacks(p, startTick, clock[..|clock| - 1]);
      LoopRunCount(p, startTick, clock, EventKind);
      LoopRunCount(p, startTick, clock, UpdateKind);
      LoopRunCount(p, startTick, clock, DelayKind);
      IterationCounts(p, startTick, before, c, EventKind);
      IterationCounts(p, startTick, before, c, UpdateKind);
      IterationCounts(p, startTick, before, c, DelayKind);
    }
  }

  /** The frame counter counts the iterations, wrapping as `unsigned int`. */
  lemma {:induction false} LoopRunFrames(p: RunParams, startTick: int, clock: seq<FrameClock>)
    ensures LoopRun(p, startTick, clock).frame == AddWrap(0, |clock|)
    decreases |clock|
  {
    if clock != [] {
      var before := LoopRun(p, startTick, clock[..|clock| - 1]);
      LoopRunFrames(p, startTick, clock[..|clock| - 1]);
      assert LoopRun(p, startTick, clock).frame == AddWrap(before.frame, 1);
      AddWrapAdd(0, |clock| - 1, 1);
    }
  }

  /** An iteration with an update callback moves the step counter and the
      number of updates by the same number of rounds. */
  lemma LoopRunLastSteps(p: RunParams, startTick: int, clock: seq<FrameClock>)
    requires p.hasUpdate && clock != []
    ensures LoopRun(p, startTick, clock).step
         == AddWrap(LoopRun(p, startTick, clock[..|clock| - 1]).step,
                    UpdateCount(LoopRun(p, startTick, clock[..|clock| - 1]).updateTick, clock[|clock| - 1].now))
    ensures Count(LoopRun(p, startTick, clock).trace, UpdateKind)
         == Count(LoopRun(p, startTick, clock[..|clock| - 1]).trace, UpdateKind)
          + UpdateCount(LoopRun(p, startTick, clock[..|clock| - 1]).updateTick, clock[|clock| - 1].now)
  {
    var before := LoopRun(p, startTick, clock[..|clock| - 1]);
    var c := clock[|clock| - 1];
    LoopRunCount(p, startTick, clock, UpdateKind);
    IterationCounts(p, startTick, before, c, UpdateKind);
    CatchUpCounts(p, startTick, before.updateTick, before.step, c.now);
  }

  /** With an update callback the step counter equals the number of update
      callbacks issued so far, wrapping as `unsigned int`. */
  lemma {:induction false} LoopRunSteps(p: RunParams, startTick: int, clock: seq<FrameClock>)
    requires p.hasUpdate
    ensures LoopRun(p, startTick, clock).step == AddWrap(0, Count(LoopRun(p, startTick, clock).trace, UpdateKind))
    decreases |clock|
  {
    if clock != [] {
      var before := LoopRun(p, startTick, clock[..|clock| - 1]);
      LoopRunSteps(p, startTick, clock[..|clock| - 1]);
      LoopRunLastSteps(p, startTick, clock);
      WrapChain(before.step, Count(before.trace, UpdateKind), UpdateCount(before.updateTick, clock[|clock| - 1].now),
                LoopRun(p, startTick, clock).step, Count(LoopRun(p, startTick, clock).trace, UpdateKind));
    }
  }

  /** Over a whole run the update tick never falls behind the start tick
      and stays on the grid of whole steps from it; after each iteration it
      has caught up with that iteration's clock reading. */
  lemma {:induction false} LoopRunTiming(p: RunParams, startTick: int, clock: seq<FrameClock>)
    ensures LoopRun(p, startTick, clock).updateTick >= startTick
    ensures (LoopRun(p, startTick, clock).updateTick - startTick) % UpdateTicks == 0
    ensures clock != [] ==> LoopRun(p, startTick, clock).updateTick >= clock[|clock| - 1].now
    decreases |clock|
  {
    if clock != [] {
      var before := LoopRun(p, startTick, clock[..|clock| - 1]);
      var c := clock[|clock| - 1];
      LoopRunTiming(p, startTick, clock[..|clock| - 1]);
      CatchUpCounts(p, startTick, before.updateTick, before.step, c.now);
      CatchUpCaughtUp(p, startTick, before.updateTick, before.step, c.now);
      var n := UpdateCount(before.updateTick, c.now);
      assert LoopRun(p, startTick, clock).updateTick - startTick
          == (before.updateTick - startTick) + n * UpdateTicks;
    }
  }

  /** The update tick never goes back, so the elapsed time that the
      callbacks see never decreases from one iteration to the next. */
  lemma LoopRunMonotone(p: RunParams, startTick: int, clock: seq<FrameClock>)
    requires clock != []
    ensures LoopRun(p, startTick, clock).updateTick >= LoopRun(p, startTick, clock[..|clock| - 1]).updateTick
  {
    var before := LoopRun(p, startTick, clock[..|clock| - 1]);
    CatchUpCaughtUp(p, startTick, before.updateTick, before.step, clock[|clock| - 1].now);
  }
}
