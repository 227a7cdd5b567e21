/** The render path: `DrawMesh` with its one-entry pipeline cache in
    `Context::lastPip`, and the pass bracket `RenderMain` that resets it. */
module Render {
  import opened EngineTypes

  /** What one `DrawMesh` call submits when the pipeline cache holds
      `lastPip`, the default pipeline is `plDefault` and the white texture
      is `tex`: nothing for an empty mesh; otherwise the pipeline switch and
      its per-pass `frame` callback on a cache miss, then the submission. */
  function DrawEvents(lastPip: u32, plDefault: u32, tex: u32, mesh: Mesh, t: Transform): (r: seq<GpuEvent>)
  {
    if mesh.pcount <= 0 then []
    else (if lastPip != plDefault then [ApplyPipeline(plDefault), Frame] else []) + Submission(tex, mesh, t)
  }

  /** The part of a non-empty draw that is issued unconditionally. */
  function Submission(tex: u32, mesh: Mesh, t: Transform): (r: seq<GpuEvent>)
  {
    [Bind(mesh.vid, mesh.iid, tex), DrawCb(t), Draw(mesh.pcount)]
  }

  /** The cached pipeline id after one `DrawMesh` call. */
  function PipAfter(lastPip: u32, plDefault: u32, mesh: Mesh): (r: u32)
  {
    if mesh.pcount <= 0 then lastPip else plDefault
  }

  /** Cache content and events of a sequence of draws. */
  datatype PassState = PassState(lastPip: u32, events: seq<GpuEvent>)

  /** The draws `reqs`, in order, starting from cache content `pip`: the
      cache ends up holding either `pip` or the default pipeline, and each
      draw submits at most five GPU calls. */
  function RunDraws(pip: u32, plDefault: u32, tex: u32, reqs: seq<DrawRequest>): (r: PassState)
    ensures r.lastPip == pip || r.lastPip == plDefault
    decreases |reqs|
  {
    if reqs == [] then PassState(pip, [])
    else
      var before := RunDraws(pip, plDefault, tex, reqs[..|reqs| - 1]);
      var last := reqs[|reqs| - 1];
      PassState(PipAfter(before.lastPip, plDefault, last.mesh),
                before.events + DrawEvents(before.lastPip, plDefault, tex, last.mesh, last.t))
  }

  /** Everything one `RenderMain` call submits. */
  function PassEvents(plDefault: u32, tex: u32, reqs: seq<DrawRequest>): (r: seq<GpuEvent>)
  {
    [BeginPass] + RunDraws(Sentinel, plDefault, tex, reqs).events + [EndPass, Commit]
  }

  /** The engine context, reduced to what the draw path reads and writes:
      the cached pipeline id, the default pipeline's id, the white texture's
      id, and (ghost) the GPU work issued so far. */
  class Context {
    var lastPip: u32
    var plDefaultId: u32
    var txWhite: u32
    ghost var trace: seq<GpuEvent>

    /** A context after `Init` created the pipeline and the texture;
        `lastPip` keeps its value-initialised id 0. */
    constructor (plDefaultId: u32, txWhite: u32)
      ensures this.plDefaultId == plDefaultId && this.txWhite == txWhite
      ensures lastPip == 0 && trace == []
    {
      this.plDefaultId := plDefaultId;
      this.txWhite := txWhite;
      lastPip := 0;
      trace := [];
    }

    method DrawMesh(mesh: Mesh, t: Transform)
      modifies this`lastPip, this`trace
      ensures lastPip == PipAfter(old(lastPip), plDefaultId, mesh)
      ensures trace == old(trace) + DrawEvents(old(lastPip), plDefaultId, txWhite, mesh, t)
      ensures mesh.pcount <= 0 ==> lastPip == old(lastPip) && trace == old(trace)
      ensures mesh.pcount > 0 ==> lastPip == plDefaultId
    {
      if mesh.pcount <= 0 {
        return;
      }
      if lastPip != plDefaultId {
        lastPip := plDefaultId;
        trace := trace + [ApplyPipeline(plDefaultId)];
        trace := trace + [Frame];
      }
      trace := trace + [Bind(mesh.vid, mesh.iid, txWhite)];
      trace := trace + [DrawCb(t)];
      trace := trace + [Draw(mesh.pcount)];
    }

    /** The callback `fn` that `RenderMain` runs, given as the `DrawMesh`
        calls it makes, in order. */
    method DrawAll(reqs: seq<DrawRequest>)
      modifies this`lastPip, this`trace
      ensures lastPip == RunDraws(old(lastPip), plDefaultId, txWhite, reqs).lastPip
      ensures trace == old(trace) + RunDraws(old(lastPip), plDefaultId, txWhite, reqs).events
    {
      ghost var pip0, base := lastPip, trace;
      var i := 0;
      while i < |reqs|
        invariant 0 <= i <= |reqs|
        invariant lastPip == RunDraws(pip0, plDefaultId, txWhite, reqs[..i]).lastPip
        invariant trace == base + RunDraws(pip0, plDefaultId, txWhite, reqs[..i]).events
      {
        assert reqs[..i + 1][..i] == reqs[..i];
        DrawMesh(reqs[i].mesh, reqs[i].t);
        i := i + 1;
      }
      assert reqs[..i] == reqs;
    }

    /** `RenderMain`: one pass bracketing the callback's draws, with the
        pipeline cache reset to `~0u` first. */
    method RenderMain(reqs: seq<DrawRequest>)
      modifies this`lastPip, this`trace
      ensures lastPip == RunDraws(Sentinel, plDefaultId, txWhite, reqs).lastPip
      ensures trace == old(trace) + PassEvents(plDefaultId, txWhite, reqs)
    {
      trace := trace + [BeginPass];
      lastPip := Sentinel;
      DrawAll(reqs);
      trace := trace + [EndPass];
      trace := trace + [Commit];
    }
  }

  // ---------------------------------------------------------------------
  // Properties of the pass

  predicate NonEmpty(r: DrawRequest) { r.mesh.pcount > 0 }

  predicate AnyNonEmpty(reqs: seq<DrawRequest>)
  {
    exists i :: 0 <= i < |reqs| && NonEmpty(reqs[i])
  }

  function CountFrames(es: seq<GpuEvent>): (r: nat)
  {
    if es == [] then 0 else CountFrames(es[..|es| - 1]) + (if es[|es| - 1] == Frame then 1 else 0)
  }

  function CountApplies(es: seq<GpuEvent>): (r: nat)
  {
    if es == [] then 0 else CountApplies(es[..|es| - 1]) + (if es[|es| - 1].ApplyPipeline? then 1 else 0)
  }

  /** The events with the pipeline switches and `frame` callbacks removed. */
  function Submitted(es: seq<GpuEvent>): (r: seq<GpuEvent>)
  {
    if es == [] then []
    else Submitted(es[..|es| - 1]) + (if es[|es| - 1] == Frame || es[|es| - 1].ApplyPipeline? then [] else [es[|es| - 1]])
  }

  /** Reference definition: the submissions of the non-empty draws, in
      request order. */
  function Submissions(tex: u32, reqs: seq<DrawRequest>): (r: seq<GpuEvent>)
  {
    if reqs == [] then []
    else
      var last := reqs[|reqs| - 1];
      Submissions(tex, reqs[..|reqs| - 1]) + (if NonEmpty(last) then Submission(tex, last.mesh, last.t) else [])
  }

  lemma CountFramesAppend(a: seq<GpuEvent>, b: seq<GpuEvent>)
    ensures CountFrames(a + b) == CountFrames(a) + CountFrames(b)
    ensures CountApplies(a + b) == CountApplies(a) + CountApplies(b)
    ensures Submitted(a + b) == Submitted(a) + Submitted(b)
    decreases |b|
  {
    if b == [] {
      assert a + b == a;
    } else {
      assert (a + b)[..|a + b| - 1] == a + b[..|b| - 1];
      CountFramesAppend(a, b[..|b| - 1]);
    }
  }

  lemma SingleCounts(e: GpuEvent)
    ensures CountFrames([e]) == (if e == Frame then 1 else 0)
    ensures CountApplies([e]) == (if e.ApplyPipeline? then 1 else 0)
    ensures Submitted([e]) == (if e == Frame || e.ApplyPipeline? then [] else [e])
  {
    assert [e][..0] == [];
  }

  lemma DrawEventsCounts(lastPip: u32, plDefault: u32, tex: u32, mesh: Mesh, t: Transform)
    ensures CountFrames(DrawEvents(lastPip, plDefault, tex, mesh, t))
         == (if mesh.pcount > 0 && lastPip != plDefault then 1 else 0)
    ensures CountApplies(DrawEvents(lastPip, plDefault, tex, mesh, t))
         == (if mesh.pcount > 0 && lastPip != plDefault then 1 else 0)
    ensures Submitted(DrawEvents(lastPip, plDefault, tex, mesh, t))
         == (if mesh.pcount > 0 then Submission(tex, mesh, t) else [])
  {
    var s := Submission(tex, mesh, t);
    assert s == [s[0]] + [s[1]] + [s[2]];
    CountFramesAppend([s[0]], [s[1]]);
    CountFramesAppend([s[0]] + [s[1]], [s[2]]);
    SingleCounts(s[0]);
    SingleCounts(s[1]);
    SingleCounts(s[2]);
    if mesh.pcount > 0 && lastPip != plDefault {
      var sw := [ApplyPipeline(plDefault), Frame];
      assert sw == [sw[0]] + [sw[1]];
      CountFramesAppend([sw[0]], [sw[1]]);
      SingleCounts(sw[0]);
      SingleCounts(sw[1]);
      CountFramesAppend(sw, s);
    } else if mesh.pcount > 0 {
      assert DrawEvents(lastPip, plDefault, tex, mesh, t) == s;
    }
  }

  /** Within one sequence of draws the per-pass `frame` callback (and the
      pipeline switch) happens exactly once if the cache starts on another
      pipeline and some mesh is non-empty, and never otherwise; the cache
      ends on the default pipeline iff some mesh is non-empty. */
  lemma {:induction false} FrameAtMostOnce(pip: u32, plDefault: u32, tex: u32, reqs: seq<DrawRequest>)
    ensures CountFrames(RunDraws(pip, plDefault, tex, reqs).events)
         == (if pip != plDefault && AnyNonEmpty(reqs) then 1 else 0)
    ensures CountApplies(RunDraws(pip, plDefault, tex, reqs).events)
         == CountFrames(RunDraws(pip, plDefault, tex, reqs).events)
    ensures RunDraws(pip, plDefault, tex, reqs).lastPip == (if AnyNonEmpty(reqs) then plDefault else pip)
    decreases |reqs|
  {
    if reqs != [] {
      var init := reqs[..|reqs| - 1];
      var last := reqs[|reqs| - 1];
      var before := RunDraws(pip, plDefault, tex, init);
      FrameAtMostOnce(pip, plDefault, tex, init);
      CountFramesAppend(before.events, DrawEvents(before.lastPip, plDefault, tex, last.mesh, last.t));
      DrawEventsCounts(before.lastPip, plDefault, tex, last.mesh, last.t);
      AnyNonEmptyLast(reqs);
      assert RunDraws(pip, plDefault, tex, reqs) ==
        PassState(PipAfter(before.lastPip, plDefault, last.mesh),
                  before.events + DrawEvents(before.lastPip, plDefault, tex, last.mesh, last.t));
    }
  }

  lemma AnyNonEmptyLast(reqs: seq<DrawRequest>)
    requires reqs != []
    ensures AnyNonEmpty(reqs) <==> AnyNonEmpty(reqs[..|reqs| - 1]) || NonEmpty(reqs[|reqs| - 1])
  {
    var init := reqs[..|reqs| - 1];
    if AnyNonEmpty(init) {
      var i :| 0 <= i < |init| && NonEmpty(init[i]);
      assert reqs[i] == init[i];
    }
    if AnyNonEmpty(reqs) && !NonEmpty(reqs[|reqs| - 1]) {
      var i :| 0 <= i < |reqs| && NonEmpty(reqs[i]);
      assert init[i] == reqs[i];
    }
  }

  /** Draws are never reordered or dropped unless empty: removing the
      pipeline switches leaves exactly the submissions of the non-empty
      draws, in request order. */
  lemma {:induction false} SubmissionOrder(pip: u32, plDefault: u32, tex: u32, reqs: seq<DrawRequest>)
    ensures Submitted(RunDraws(pip, plDefault, tex, reqs).events) == Submissions(tex, reqs)
    decreases |reqs|
  {
    if reqs != [] {
      var init := reqs[..|reqs| - 1];
      var last := reqs[|reqs| - 1];
      var before := RunDraws(pip, plDefault, tex, init);
      SubmissionOrder(pip, plDefault, tex, init);
      CountFramesAppend(before.events, DrawEvents(before.lastPip, plDefault, tex, last.mesh, last.t));
      DrawEventsCounts(before.lastPip, plDefault, tex, last.mesh, last.t);
    }
  }

  /** Every binding in a sequence of draws uses the white texture, whatever
      the meshes' `diffuse` textures are. */
  lemma {:induction false} BindsOnlyWhite(pip: u32, plDefault: u32, tex: u32, reqs: seq<DrawRequest>)
    ensures forall k :: 0 <= k < |RunDraws(pip, plDefault, tex, reqs).events| &&
                        RunDraws(pip, plDefault, tex, reqs).events[k].Bind? ==>
                        RunDraws(pip, plDefault, tex, reqs).events[k].tex == tex
    decreases |reqs|
  {
    if reqs != [] {
      BindsOnlyWhite(pip, plDefault, tex, reqs[..|reqs| - 1]);
    }
  }

  /** A pass whose draws are all empty submits nothing between BeginPass
      and EndPass. */
  lemma {:induction false} EmptyDrawsSubmitNothing(pip: u32, plDefault: u32, tex: u32, reqs: seq<DrawRequest>)
    requires forall i :: 0 <= i < |reqs| ==> !NonEmpty(reqs[i])
    ensures RunDraws(pip, plDefault, tex, reqs) == PassState(pip, [])
    decreases |reqs|
  {
    if reqs != [] {
      EmptyDrawsSubmitNothing(pip, plDefault, tex, reqs[..|reqs| - 1]);
    }
  }

  /** A pass runs the `frame` callback exactly once when some draw is
      non-empty (and the default pipeline's id is not `~0u`), and never
      otherwise. */
  lemma PassFrames(plDefault: u32, tex: u32, reqs: seq<DrawRequest>)
    ensures CountFrames(PassEvents(plDefault, tex, reqs))
         == (if plDefault != Sentinel && AnyNonEmpty(reqs) then 1 else 0)
  {
    FrameAtMostOnce(Sentinel, plDefault, tex, reqs);
    var body := RunDraws(Sentinel, plDefault, tex, reqs).events;
    CountFramesAppend([BeginPass], body);
    CountFramesAppend([BeginPass] + body, [EndPass, Commit]);
    assert [EndPass, Commit][..1] == [EndPass];
  }

  /** Since `RenderMain` resets the cache to `~0u`, the first non-empty draw
      of every pass switches to the default pipeline and runs `frame`
      (unless the default pipeline's id is `~0u` itself), whatever pipeline
      was cached when the previous pass ended; and `frame` runs in that pass
      exactly once. */
  lemma FirstDrawOfPassRunsFrame(plDefault: u32, tex: u32, reqs: seq<DrawRequest>, i: nat)
    requires plDefault != Sentinel
    requires i < |reqs| && NonEmpty(reqs[i])
    requires forall j :: 0 <= j < i ==> !NonEmpty(reqs[j])
    ensures RunDraws(Sentinel, plDefault, tex, reqs[..i]).lastPip == Sentinel
    ensures DrawEvents(RunDraws(Sentinel, plDefault, tex, reqs[..i]).lastPip, plDefault, tex, reqs[i].mesh, reqs[i].t)
         == [ApplyPipeline(plDefault), Frame] + Submission(tex, reqs[i].mesh, reqs[i].t)
    ensures CountFrames(PassEvents(plDefault, tex, reqs)) == 1
  {
    EmptyDrawsSubmitNothing(Sentinel, plDefault, tex, reqs[..i]);
    FrameAtMostOnce(Sentinel, plDefault, tex, reqs);
    var body := RunDraws(Sentinel, plDefault, tex, reqs).events;
    CountFramesAppend([BeginPass], body);
    CountFramesAppend([BeginPass] + body, [EndPass, Commit]);
    assert [EndPass, Commit][..1] == [EndPass];
  }
}
