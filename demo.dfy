/** The demo program: a `Game` holding three meshes, its `init` (the loaded
    model, the height samples, the ground and a hand-built quad), its
    per-frame draw list, and the callbacks it hands to the runner. */
module Demo {
  import opened Wrappers
  import opened EngineTypes
  import opened Render
  import opened Runner
  import opened RunnerProperties
  import Ply

  // ---------------------------------------------------------------------
  // Height samples

  /** `hmsz`: the side of the square of height samples. */
  const Hmsz: int := 34

  /** The side of the heightmap grid handed to `MakeHMap`: `hmsz - 2`,
      leaving a ring of one sample around it. */
  const GridSize: int := Hmsz - 2

  /** The sampler lambda's offset `(y + 1) * hmsz + x + 1` for a grid
      position `(x, y)`, one of the grid's `GridSize + 2` positions per side
      counting the ring (-1 to `GridSize`). The offset is inside the
      `hmsz * hmsz` samples, and it is row-major with stride `hmsz`: column
      `x + 1` of row `y + 1`. */
  function SampleOffset(x: int, y: int): (ofs: int)
    requires -1 <= x <= GridSize && -1 <= y <= GridSize
    ensures 0 <= ofs < Hmsz * Hmsz
    ensures ofs % Hmsz == x + 1 && ofs / Hmsz == y + 1
  {
    (y + 1) * Hmsz + x + 1
  }

  /** Two grid positions never read the same sample. */
  lemma SampleOffsetInjective(x1: int, y1: int, x2: int, y2: int)
    requires -1 <= x1 <= GridSize && -1 <= y1 <= GridSize
    requires -1 <= x2 <= GridSize && -1 <= y2 <= GridSize
    requires SampleOffset(x1, y1) == SampleOffset(x2, y2)
    ensures x1 == x2 && y1 == y2
  {
  }

  /** The sampler passed to `MakeHMap`: reads the sample of `heightData`,
      taken row-major with stride `hmsz`, at column `x + 1` of row `y + 1`. */
  function Sample<T>(heightData: seq<T>, x: int, y: int): (r: T)
    requires |heightData| == Hmsz * Hmsz
    requires -1 <= x <= GridSize && -1 <= y <= GridSize
    ensures forall i :: 0 <= i < |heightData| && i % Hmsz == x + 1 && i / Hmsz == y + 1 ==> r == heightData[i]
  {
    heightData[SampleOffset(x, y)]
  }

  /** Reference definition of the filled `heightData`: sample `i` holds the
      height of column `i % hmsz` and row `i / hmsz`. The height function
      `h` stands for the floating-point expression of the source. */
  function Heights<T>(h: (int, int) -> T): (r: seq<T>)
    ensures |r| == Hmsz * Hmsz
  {
    seq(Hmsz * Hmsz, i requires 0 <= i < Hmsz * Hmsz => h(i % Hmsz, i / Hmsz))
  }

  lemma RowMajor(x: int, y: int)
    requires 0 <= x < Hmsz && 0 <= y < Hmsz
    ensures 0 <= y * Hmsz + x < Hmsz * Hmsz
    ensures (y * Hmsz + x) % Hmsz == x && (y * Hmsz + x) / Hmsz == y
  {
  }

  /** The nested loops of `init` that resize `heightData` to `hmsz * hmsz`
      zeroes and write the height of `(x, y)` at `y * hmsz + x`. */
  method FillHeights<T>(zero: T, h: (int, int) -> T) returns (heightData: array<T>)
    ensures fresh(heightData)
    ensures heightData[..] == Heights(h)
  {
    heightData := new T[Hmsz * Hmsz](_ => zero);
    var y := 0;
    while y < Hmsz
      invariant 0 <= y <= Hmsz
      invariant forall i :: 0 <= i < y * Hmsz ==> heightData[i] == Heights(h)[i]
    {
      var x := 0;
      while x < Hmsz
        invariant 0 <= x <= Hmsz
        invariant forall i :: 0 <= i < y * Hmsz + x ==> heightData[i] == Heights(h)[i]
      {
        RowMajor(x, y);
        heightData[y * Hmsz + x] := h(x, y);
        x := x + 1;
      }
      y := y + 1;
    }
  }

  /** The sampler reads the height written for the sample one column and
      one row further on: grid position `(x, y)` sees `h(x + 1, y + 1)`, so
      the ring at -1 and `GridSize` reads the outermost samples. */
  lemma SampleReadsShifted<T>(h: (int, int) -> T, x: int, y: int)
    requires -1 <= x <= GridSize && -1 <= y <= GridSize
    ensures Sample(Heights(h), x, y) == h(x + 1, y + 1)
  {
  }

  // ---------------------------------------------------------------------
  // The hand-built quad

  /** A vertex of the quad: its position in half units (so -1 and 1 are
      -0.5 and 0.5; z is 0) and its colour. The normal and the texture
      coordinate are the same for all four. */
  datatype QuadVertex = QuadVertex(x: int, y: int, color: u32)

  const QuadVertices: seq<QuadVertex> := [
    QuadVertex(-1, -1, 0xffff0000),
    QuadVertex(1, -1, 0xff00ff00),
    QuadVertex(-1, 1, 0xff0000ff),
    QuadVertex(1, 1, 0xffffffff)
  ]

  const QuadIndices: seq<u16> := [0, 1, 2, 1, 3, 2]

  /** Twice the signed area of the triangle `a b c`: positive when it winds
      counter-clockwise. */
  function Orientation(a: QuadVertex, b: QuadVertex, c: QuadVertex): (r: int)
  {
    (b.x - a.x) * (c.y - a.y) - (b.y - a.y) * (c.x - a.x)
  }

  /** The quad is two triangles over its four vertices: every index is in
      range, each triangle has three distinct corners, the two share the
      edge from vertex 1 to vertex 2 (the only vertices used twice) and
      together use every vertex. */
  lemma QuadTopology()
    ensures |QuadVertices| == 4 && |QuadIndices| == 6
    ensures forall i :: 0 <= i < |QuadIndices| ==> QuadIndices[i] as int < |QuadVertices|
    ensures QuadIndices[0] != QuadIndices[1] && QuadIndices[1] != QuadIndices[2] && QuadIndices[2] != QuadIndices[0]
    ensures QuadIndices[3] != QuadIndices[4] && QuadIndices[4] != QuadIndices[5] && QuadIndices[5] != QuadIndices[3]
    ensures {QuadIndices[0], QuadIndices[1], QuadIndices[2]} * {QuadIndices[3], QuadIndices[4], QuadIndices[5]} == {1, 2}
    ensures multiset(QuadIndices) == multiset{0, 1, 1, 2, 2, 3}
  {
    assert QuadIndices[0] == 0 && QuadIndices[1] == 1 && QuadIndices[2] == 2 && QuadIndices[4] == 3;
  }

  /** Both triangles of the quad wind counter-clockwise, so both face the
      same way. */
  lemma QuadWinding()
    ensures Orientation(QuadVertices[QuadIndices[0]], QuadVertices[QuadIndices[1]], QuadVertices[QuadIndices[2]]) > 0
    ensures Orientation(QuadVertices[QuadIndices[3]], QuadVertices[QuadIndices[4]], QuadVertices[QuadIndices[5]]) > 0
  {
  }

  // ---------------------------------------------------------------------
  // The game

  /** The draws of one frame: the ground at the origin, the model at the
      four corners (-1, -1), (1, -1), (-1, 1), (1, 1), and the quad two
      units up. */
  function FrameRequests(ground: Mesh, model: Mesh, test: Mesh): (r: seq<DrawRequest>)
    ensures |r| == 6
  {
    [DrawRequest(ground, Translate(0, 0, 0)),
     DrawRequest(model, Translate(-1, -1, 0)),
     DrawRequest(model, Translate(1, -1, 0)),
     DrawRequest(model, Translate(-1, 1, 0)),
     DrawRequest(model, Translate(1, 1, 0)),
     DrawRequest(test, Translate(0, 0, 2))]
  }

  /** `Game`: the three meshes of the demo (the camera angles are floating
      point and not modelled). */
  class Game {
    var test: Mesh
    var model: Mesh
    var ground: Mesh

    /** `Game g;`: every mesh is `Mesh{}`. */
    constructor ()
      ensures test == EmptyMesh && model == EmptyMesh && ground == EmptyMesh
    {
      test, model, ground := EmptyMesh, EmptyMesh, EmptyMesh;
    }

    /** `init`: the model is the loaded mesh, or stays as it was when
        loading returns nothing; the ground is the heightmap mesh `hmap`
        with the checker texture as its diffuse texture; the test mesh is
        the quad. When the loader throws `std::length_error`, `init` stops
        right there with nothing changed, and `threw` is true. `MakeHMap`
        is not part of this model, so its result and the buffer ids are
        parameters; `file` stands for the lines of `pipo.ply`. */
    method Init(stoi: string -> int, file: Option<seq<string>>, modelVid: u32, modelIid: u32,
                hmap: Mesh, txChecker: u32, quadVid: u32, quadIid: u32) returns (threw: bool)
      requires Ply.HeaderDefined(Ply.IntendedMap, stoi, file)
      modifies this
      ensures threw <==> file.Some? && Ply.LoadedMesh(Ply.IntendedMap, stoi, file.value, modelVid, modelIid).LengthError?
      ensures threw ==> model == old(model) && ground == old(ground) && test == old(test)
      ensures file.Some? && Ply.LoadedMesh(Ply.IntendedMap, stoi, file.value, modelVid, modelIid).Loaded? ==>
                model == Ply.LoadedMesh(Ply.IntendedMap, stoi, file.value, modelVid, modelIid).value
      ensures file.None? || Ply.LoadedMesh(Ply.IntendedMap, stoi, file.value, modelVid, modelIid).Failed? ==>
                model == old(model)
      ensures !threw ==> ground == hmap.(diffuse := txChecker)
      ensures !threw ==> test == MakeMesh(quadVid, quadIid, QuadVertices, QuadIndices)
    {
      var loaded := Ply.LoadMesh(Ply.IntendedMap, stoi, file, modelVid, modelIid);
      if loaded.LengthError? {
        return true;
      }
      if loaded.Loaded? {
        model := loaded.value;
      }
      ground := hmap;
      ground := ground.(diffuse := txChecker);
      test := MakeMesh(quadVid, quadIid, QuadVertices, QuadIndices);
      return false;
    }

    /** `draw`: one `RenderMain` pass over the frame's six draws. */
    method Draw(ctx: Context)
      modifies ctx`lastPip, ctx`trace
      ensures ctx.trace == old(ctx.trace) + PassEvents(ctx.plDefaultId, ctx.txWhite, FrameRequests(ground, model, test))
      ensures ctx.lastPip == RunDraws(Sentinel, ctx.plDefaultId, ctx.txWhite, FrameRequests(ground, model, test)).lastPip
    {
      ctx.RenderMain(FrameRequests(ground, model, test));
    }
  }

  /** The quad built by `init` always has six indices to draw. */
  lemma TestMeshDraws(quadVid: u32, quadIid: u32)
    ensures MakeMesh(quadVid, quadIid, QuadVertices, QuadIndices).pcount == 6
  {
  }

  /** Every frame of the demo runs the `frame` callback exactly once, as
      long as the quad is non-empty (which `init` ensures) and the default
      pipeline's id is not `~0u`: the four model draws and the ground reuse
      the pipeline. */
  lemma DemoFrameRunsFrameOnce(plDefault: u32, tex: u32, ground: Mesh, model: Mesh, test: Mesh)
    requires plDefault != Sentinel && test.pcount > 0
    ensures CountFrames(PassEvents(plDefault, tex, FrameRequests(ground, model, test))) == 1
  {
    var reqs := FrameRequests(ground, model, test);
    assert NonEmpty(reqs[5]);
    PassFrames(plDefault, tex, reqs);
  }

  /** When `pipo.ply` fails to load the model keeps `Mesh{}`, whose four
      draws submit nothing: a frame submits the ground (when non-empty)
      and the quad, in that order, and both bind the white texture, not
      the ground's checker texture. */
  lemma FailedLoadDrawsGroundAndTest(plDefault: u32, tex: u32, ground: Mesh, test: Mesh)
    ensures Submitted(RunDraws(Sentinel, plDefault, tex, FrameRequests(ground, EmptyMesh, test)).events)
         == (if ground.pcount > 0 then [Bind(ground.vid, ground.iid, tex), DrawCb(Translate(0, 0, 0)), Draw(ground.pcount)] else [])
          + (if test.pcount > 0 then [Bind(test.vid, test.iid, tex), DrawCb(Translate(0, 0, 2)), Draw(test.pcount)] else [])
  {
    var r := FrameRequests(ground, EmptyMesh, test);
    SubmissionOrder(Sentinel, plDefault, tex, r);
    var g := if ground.pcount > 0 then Submission(tex, ground, Translate(0, 0, 0)) else [];
    assert r[..1][..0] == [];
    assert Submissions(tex, r[..1]) == g;
    assert r[..2][..1] == r[..1];
    assert Submissions(tex, r[..2]) == g;
    assert r[..3][..2] == r[..2];
    assert Submissions(tex, r[..3]) == g;
    assert r[..4][..3] == r[..3];
    assert Submissions(tex, r[..4]) == g;
    assert r[..5][..4] == r[..4];
    assert Submissions(tex, r[..5]) == g;
    assert r[..6][..5] == r[..5];
    assert r[..6] == r;
  }

  /** The callbacks the demo hands to `Run`: init, draw and event; no
      update and no release. */
  const DemoParams: RunParams := RunParams(true, false, true, false, true)

  /** Over any run of the demo: one draw and one swap per iteration, no
      update callback ever, every pending event forwarded, and `exec`
      brackets the loop as engine init, user init, loop, engine release. */
  lemma DemoRun(startTick: int, clock: seq<FrameClock>)
    ensures Count(LoopRun(DemoParams, startTick, clock).trace, DrawKind) == |clock|
    ensures Count(LoopRun(DemoParams, startTick, clock).trace, SwapKind) == |clock|
    ensures Count(LoopRun(DemoParams, startTick, clock).trace, UpdateKind) == 0
    ensures Count(LoopRun(DemoParams, startTick, clock).trace, EventKind) == TotalPending(clock)
    ensures |ExecTrace(DemoParams, LoopRun(DemoParams, startTick, clock).trace)|
         == |LoopRun(DemoParams, startTick, clock).trace| + 3
    ensures ExecTrace(DemoParams, LoopRun(DemoParams, startTick, clock).trace)[1] == UserInit
  {
    LoopRunSwapsAndDraws(DemoParams, startTick, clock);
    LoopRunCallbacks(DemoParams, startTick, clock);
  }
}
