# pipoengine core, modelled in Dafny

This project models the core of pipoengine, a small C++ rendering harness built on sokol and SDL, and of the demo program that uses it:

- **The draw path.** `DrawMesh` keeps a one-entry pipeline cache in `Context::lastPip`: it switches pipeline and runs the pipeline's per-pass `frame` callback only on a cache miss. It then binds the mesh's buffers with the white texture, runs the `draw` callback and issues the indexed draw. `RenderMain` brackets a frame's draws in one pass. It resets the cache to `~0u` first, so the first non-empty draw of every pass runs `frame`.
- **The ASCII PLY loader `LoadMesh`.**
  - The header's `element` and `property` lines are looked up in a `std::map` that is built from an initializer list in which `"u"` is given twice.
  - The header must yield exactly two element groups.
  - Each group's count goes to `reserve` (`3 * count` for the faces). A negative count becomes a huge `size_t`, so `reserve` throws `std::length_error`. The face block is reached only when the vertex block completed.
  - After it come one line per vertex and one line per face; the loader fails when the file ends early.
  - A vertex line's tokens fill the recognised properties in order; an unknown property takes no token.
  - Unlisted components stay 0.5, and the colour is read but replaced by a constant.
  - A face line yields tokens 2 to 4 (the leading count is ignored), converted to `uint16_t`.
  - `MakeMesh` sets `pcount` to the number of indices.
- **The runner.** `Runner::loop` polls events. It then catches the simulation up in fixed 8 ms steps (8,000,000 ticks, `step` incremented each time, wrapping as `unsigned int`), draws once, swaps, and sleeps `10 - dt` ms when the iteration took `dt < 10` ms. `Runner::exec` runs engine init, user init, the loop, user release and engine release, in that order.
- **The demo (`main.cpp`).**
  - `init` loads the model, keeping `Mesh{}` when the loader returns nothing; a `std::length_error` from the loader leaves `init` at once. It fills the `34 × 34` height samples and builds the ground and a hand-built quad.
  - The sampler handed to `MakeHMap` reads `(y + 1) * 34 + x + 1`.
  - `draw` renders the ground, four copies of the model and the quad.

Each imperative piece is a Dafny `method` proved against a specification function:

| method | specification function |
|---|---|
| `Render.Context.DrawMesh` | `DrawEvents` |
| `Render.Context.RenderMain` | `PassEvents` |
| `Ply.ReadHeader` | `ParseHeader` |
| `Ply.ReadVertices` | `VerticesOf` |
| `Ply.ReadFaces` | `FacesOf` |
| `Ply.ReadBody` | `LoadBody` |
| `Ply.LoadLines` | `Load` |
| `Ply.LoadMesh` | `LoadedMesh` |
| `Render.Context.DrawAll` | `RunDraws` |
| `Runner.Iterate` | `Iteration`, `IterationEvents` |
| `Runner.CatchUp` | `CatchUpSpec` |
| `Runner.Loop` | `LoopRun` |
| `Demo.FillHeights` | `Heights` |

The tokenizer `Ply.Tokens`, the property map `Ply.BuildMap` with its lookup `Ply.FirstMatch`, the header line step `Ply.HeaderStep` and the sampler `Demo.Sample` are functions with no loop of their own. The properties the source promises are lemmas about all of these functions. GPU calls are trace events (`GpuEvent`, `LoopEvent`, `LifeEvent`).

The inputs a run reads from outside become parameters:

- the file's lines;
- `stoi`;
- the clock readings `FrameClock` of each iteration, including the number of pending events;
- the buffer ids that the GPU hands out.

Modules:

- `Wrappers` holds `Option`. The loader's stages end in an `Outcome`: a value, `return {}` (`Failed`) or the exception (`LengthError`).
- `EngineTypes` holds the ids, `Mesh`, `MakeMesh` and the GPU events.
- `Render` covers `DrawMesh` and `RenderMain`.
- `Ply` is the loader; `PlyProperties` holds its properties.
- `Runner` covers `loop` and `exec`; `RunnerProperties` holds their properties.
- `Demo` covers `main.cpp`.

The source files are at different revisions; the model follows the code where the revisions disagree:

- **Mesh layout.** `MakeMesh` (src/pipoengine.cpp:34) initialises a `Mesh` as `{vid, iid, pcount}`. That matches the struct in src/pipoengine.inl, but not the header's struct, which has `pip` and `diffuse` first. The model keeps `diffuse`, because the demo sets it (src/main.cpp:46); `MakeMesh` leaves it 0.
- **Pipeline sentinel.** The pass-start reset relies on `~0u` never being a real pipeline id. The code does not guarantee this, so the lemmas that rely on it require the default pipeline's id to differ from `~0u`.

## Model

| member | source | states |
|---|---|---|
| EngineTypes.AddWrap | src/pipoengine.h:181-182 | increment of an `unsigned int` counter: the result is the sum modulo 2^32 |
| EngineTypes.ToU16 | src/pipoengine.cpp:126-128 | pushing an `int` into the `uint16_t` index vector keeps it modulo 65536, unchanged when in range |
| EngineTypes.MakeMesh | src/pipoengine.cpp:22-35 | the mesh gets the two buffer ids, and its draw count `pcount` is the number of indices supplied |
| Render.Context.constructor | src/pipoengine.h:75-79 | a context after `Init`: its default pipeline and white texture ids, with `lastPip` value-initialised to 0 |
| Render.Context.DrawMesh | src/pipoengine.cpp:135-157 | an empty mesh changes nothing; otherwise the cache ends on the default pipeline, and the pipeline switch plus `frame` are issued iff the cache held another id, followed by bind (white texture), `draw`, indexed draw |
| Render.Context.DrawAll | src/pipoengine.h:161 | the callback's draws, in order: cache and trace are those of the draws run one after another |
| Render.Context.RenderMain | src/pipoengine.h:148-165 | begin pass, cache reset to `~0u`, the draws, end pass, commit |
| Render.RunDraws | src/pipoengine.cpp:135-157 | the draws of one callback run one after another (src/pipoengine.h:161): the cache ends holding its start value or the default pipeline |
| Render.DrawEventsCounts | src/pipoengine.cpp:137-144 | one draw runs `frame` (and one pipeline switch) iff the mesh is non-empty and the cache misses; with the switches removed it leaves exactly its submission |
| Render.FrameAtMostOnce | src/pipoengine.cpp:140-144 | over any run of draws `frame` runs once if the cache starts on another pipeline and some mesh is non-empty, never otherwise, as often as the pipeline is switched; the cache ends on the default pipeline iff some mesh is non-empty |
| Render.SubmissionOrder | src/pipoengine.cpp:146-156 | without the pipeline switches, a run of draws is exactly the submissions of its non-empty meshes, in request order |
| Render.BindsOnlyWhite | src/pipoengine.cpp:146-150 | every binding uses the white texture, whatever the mesh's `diffuse` is |
| Render.EmptyDrawsSubmitNothing | src/pipoengine.cpp:137-138 | draws of empty meshes issue nothing and leave the cache as it was |
| Render.PassFrames | src/pipoengine.h:159-161 | a pass runs `frame` exactly once when some draw is non-empty (default id not `~0u`), never otherwise |
| Render.FirstDrawOfPassRunsFrame | src/pipoengine.h:159 | after the reset, the first non-empty draw of a pass always switches pipeline and runs `frame`, whatever the previous pass left cached |
| Ply.Slot | src/pipoengine.cpp:43-45 | every component has a slot inside the `count`-sized `data` array |
| Ply.WordEnd | src/pipoengine.cpp:98-101 | string extraction stops at the first whitespace after a run of non-spaces |
| Ply.TokensWellFormed | src/pipoengine.cpp:98-101 | `Tokens`, the strings `>>` extracts from a line in order, are each non-empty and free of whitespace (the header lines at lines 69 and 74 and the face lines at line 122 are split the same way) |
| Ply.TokensOfJoin | src/pipoengine.cpp:98-101 | extracting the tokens of a space-joined line gives back the tokens |
| Ply.BuildMap | src/pipoengine.cpp:47-60 | the map built from the initializer list has the key of every entry |
| Ply.FirstMatch | src/pipoengine.cpp:47-60 | the first entry for a key: none iff no entry has the key, and otherwise the value of an entry with that key |
| Ply.BuildMapLookup | src/pipoengine.cpp:47-60 | a key is in the map built from the initializer list iff some entry has it, and it maps to its first entry's value |
| Ply.HeaderFrom | src/pipoengine.cpp:65-82 | the header scan ends at or before the end of the file |
| PlyProperties.HeaderStepExtends | src/pipoengine.cpp:66-81 | one header line (`HeaderStep`) only appends: it keeps every group but the last, keeps the last group's count and adds at most one component to it, and opens at most one new, empty group; it leaves the scan undetermined only for a line too short to hold a second word or a `property` line before any `element` line |
| Ply.ReadHeader | src/pipoengine.cpp:62-82 | the header loop yields the element groups and the first body line that `ParseHeader` defines |
| Ply.VertexFill | src/pipoengine.cpp:99-104 | the per-line `data` array always has `count` slots |
| Ply.ReadVertexLine | src/pipoengine.cpp:96-110 | one vertex line resets `data` to 0.5 and fills it as `VertexFill` defines; it yields that line's vertex and the last extracted string |
| Ply.VerticesUpTo | src/pipoengine.cpp:95-111 | `k` vertex lines give `k` vertices |
| Ply.ReadVertices | src/pipoengine.cpp:90-112 | the vertex block: `std::length_error` for a negative count, otherwise the specified vertices, or none when the file ends first |
| Ply.FaceStep | src/pipoengine.cpp:121-128 | each face line pushes three indices |
| Ply.FacesUpTo | src/pipoengine.cpp:118-129 | `k` face lines give `3 k` indices |
| Ply.ReadFaces | src/pipoengine.cpp:114-130 | the face block: `std::length_error` for a negative count, otherwise the specified indices, or none when the file ends first |
| Ply.LoadBody | src/pipoengine.cpp:84-131 | the body loads only after exactly two groups, as `n` vertices and `3 m` indices whose `n + m` lines the file holds; it throws only for a negative count |
| Ply.Load | src/pipoengine.cpp:62-131 | a file loads only when its header declares two groups, and then every vertex and face line lies in the file after the header |
| Ply.LoadedMesh | src/pipoengine.cpp:37-133 | a mesh exactly when the geometry loads, and the exception exactly when loading throws; the mesh has the two buffer ids, no texture and one draw index per loaded index |
| Ply.ReadBody | src/pipoengine.cpp:84-131 | none unless there are exactly two groups; otherwise the vertex block, then, once it completed, the face block from the line after the vertices; an exception of either block propagates |
| Ply.LoadLines | src/pipoengine.cpp:62-132 | header then body, as `Load` defines |
| Ply.LoadMesh | src/pipoengine.cpp:37-133 | none when the file does not open; otherwise the mesh `MakeMesh` makes of the loaded geometry, none, or the `std::length_error` of a negative count |
| PlyProperties.LoadShape | src/pipoengine.cpp:84-131 | the loader throws iff there are two groups and the vertex count is negative, or the vertex lines are all there and the face count is negative; it succeeds iff there are two groups with non-negative counts whose lines the file holds; then the vertices and indices are those of the two loops, `n` vertices and `3 m` indices |
| PlyProperties.LoadedMeshDrawCount | src/pipoengine.cpp:114-132 | a loaded mesh draws three indices per declared face, so it is drawn at all iff the face count is positive |
| PlyProperties.ComponentOfVertex | src/pipoengine.cpp:105-108 | a vertex keeps position, normal and texture slots of `data` |
| PlyProperties.VertexFillUntouched | src/pipoengine.cpp:99-104 | a component no recognised property names stays 0.5 |
| PlyProperties.VertexFillTaken | src/pipoengine.cpp:100-104 | the `j`-th recognised property takes the `j`-th token, unless a later property names the same slot |
| PlyProperties.VerticesAt | src/pipoengine.cpp:95-111 | the `k`-th vertex comes from the `k`-th body line |
| PlyProperties.FacesAt | src/pipoengine.cpp:118-129 | indices `3k` to `3k+2` are the `k`-th face line's three |
| PlyProperties.LoadedVertexComponent | src/pipoengine.cpp:100-108 | a loaded vertex takes its line's `j`-th token for the `j`-th recognised property |
| PlyProperties.LoadedVertexDefaults | src/pipoengine.cpp:99-109 | every loaded vertex has the constant colour, and unlisted components are 0.5 |
| PlyProperties.FullFaceLine | src/pipoengine.cpp:122-125 | a face line with four tokens yields its tokens 2 to 4 |
| PlyProperties.FaceOfLines | src/pipoengine.cpp:118-128 | face `k` of a run of face lines yields tokens 2 to 4 of its line |
| PlyProperties.LoadedFace | src/pipoengine.cpp:118-128 | face `k` of a loaded mesh yields tokens 2 to 4 of its line, as `uint16_t` |
| PlyProperties.HeaderCmpsFromTable | src/pipoengine.cpp:76-78 | every recognised property is a value of the table |
| PlyProperties.MapKeepsFirst | src/pipoengine.cpp:47-60 | a key keeps its first entry's value |
| PlyProperties.MapLacks | src/pipoengine.cpp:47-60 | a key no entry has is not in the map |
| PlyProperties.MapFromEntries | src/pipoengine.cpp:47-60 | every binding of the map is one of the entries |
| PlyProperties.SourceTableSkipsV | src/pipoengine.cpp:54-55 | as written, with the first of two equal keys kept, `"u"` maps to the first texture coordinate, `"v"` is absent, and nothing maps to the second coordinate |
| PlyProperties.SourceLoaderNeverReadsV | src/pipoengine.cpp:105-108 | with the table as written, every loaded vertex's second texture coordinate is 0.5 |
| PlyProperties.IntendedTableReadsV | src/pipoengine.cpp:47-60 | with `"v"` in place of the second `"u"`, both coordinates have keys |
| PlyProperties.ElementLineStep | src/pipoengine.cpp:66-70 | an `element` line opens a new, empty group whose count is `stoi` of the line's second word |
| PlyProperties.PropertyLineStep | src/pipoengine.cpp:71-78 | a `property` line appends the table's component for its second word to the last group, and changes nothing when the table does not know the word |
| PlyProperties.EndHeaderStep | src/pipoengine.cpp:79-80 | `end_header` ends the header scan |
| PlyProperties.PropertyLinesStep | src/pipoengine.cpp:71-78 | a run of `property` lines appends to the last group, in header order, the components of the names the table knows |
| PlyProperties.TwoGroupHeaderParse | src/pipoengine.cpp:65-82 | a header with a vertex group of `float` properties and a face group scans to the vertex group with its recognised components, in order, and an empty face group; the body starts after `end_header` |
| PlyProperties.NegativeVertexCountThrows | src/pipoengine.cpp:90-92 | a file whose header declares `element vertex -1` makes the loader throw `std::length_error`, whatever follows |
| PlyProperties.OneVertexFile | src/pipoengine.cpp:62-112 | a file declaring one vertex and no face loads as the vertex its one body line fills with the recognised components |
| PlyProperties.TextureCoordinatesAsWritten | src/pipoengine.cpp:54-108 | with the table as written, the file of `TextureCoordinates` loads with `uv = (t0, 0.5)` |
| PlyProperties.TextureCoordinates | src/pipoengine.cpp:100-108 | a file whose header declares one vertex with properties `u v` and whose body line is `t0 t1` loads, with the corrected table, as one vertex with `uv = (t0, t1)` |
| PlyProperties.UnknownPropertyShiftsTokens | src/pipoengine.cpp:76-104 | the header scan of properties `x weight y` keeps `[x, y]`, so the vertex line `a b c` loads as x = a, y = b and z = 0.5 |
| PlyProperties.ShortVertexLineReusesItem | src/pipoengine.cpp:94-104 | a blank vertex line repeats the previous line's last token in every recognised component; a one-token line repeats its own token |
| Runner.Pacing | src/pipoengine.h:236-238 | a delay is taken iff the iteration took under 10 ms, and it brings the iteration to exactly 10 ms |
| Runner.Polls | src/pipoengine.h:199-213 | each pending event reaches the event callback once |
| Runner.CatchUp | src/pipoengine.h:215-223 | the catch-up loop computes what `CatchUpSpec` defines |
| Runner.Poll | src/pipoengine.h:199-213 | the poll loop forwards every pending event when there is an event callback |
| Runner.Iteration | src/pipoengine.h:196-238 | one iteration counts one frame: the frame counter goes up by one modulo 2^32 |
| Runner.Iterate | src/pipoengine.h:196-238 | one iteration: poll, catch up, count the frame, draw, swap, pace |
| Runner.Loop | src/pipoengine.h:179-242 | the loop's events are those of `LoopRun`; it returns 0 |
| Runner.ExecTrace | src/pipoengine.h:244-255 | engine init first, engine release last, user init second when set, user release second to last when set, the loop's events in order in between |
| Runner.Exec | src/pipoengine.h:244-255 | `exec` issues `ExecTrace` of the loop's events and returns 0 |
| RunnerProperties.CatchUpCounts | src/pipoengine.h:215-221 | the catch-up runs the fewest whole steps that reach `now`: the tick moves by that many steps, the step counter by that many modulo 2^32, with that many updates when there is an update callback |
| RunnerProperties.CatchUpCaughtUp | src/pipoengine.h:215-217 | after the catch-up the tick is at or past `now` and one step earlier it was behind; a tick already there is untouched |
| RunnerProperties.CatchUpUpdates | src/pipoengine.h:217-221 | the `k`-th update sees the tick and the step counter after `k + 1` steps; none without an update callback |
| RunnerProperties.IterationCounts | src/pipoengine.h:196-238 | an iteration: one event callback per pending event, one update per step, one draw, one swap, at most one delay |
| RunnerProperties.IterationShape | src/pipoengine.h:196-238 | an iteration's events (`IterationEvents`) begin with the polled event callbacks and end with the swap followed by the pacing delay, and the loop's log keeps what was there before them |
| RunnerProperties.LoopRunSwapsAndDraws | src/pipoengine.h:225-234 | a run swaps once per iteration and draws once per iteration when there is a draw callback |
| RunnerProperties.LoopRunCallbacks | src/pipoengine.h:199-223 | every pending event is forwarded, no update happens without an update callback, at most one delay per iteration |
| RunnerProperties.LoopRunFrames | src/pipoengine.h:182 | the frame counter is the number of iterations modulo 2^32 |
| RunnerProperties.LoopRunSteps | src/pipoengine.h:218-221 | with an update callback the step counter is the number of updates issued, modulo 2^32 |
| RunnerProperties.LoopRunTiming | src/pipoengine.h:191-194 | the update tick stays on the grid of whole steps from the start tick and is caught up after each iteration |
| RunnerProperties.LoopRunMonotone | src/pipoengine.h:194 | the update tick, and so the elapsed time the callbacks see, never decreases |
| Demo.SampleOffset | src/main.cpp:41-44 | for positions from -1 to 32, the offset lies inside the `34 × 34` samples, at column `x + 1` of row `y + 1` |
| Demo.Sample | src/main.cpp:41-44 | the sampler reads the sample at column `x + 1` of row `y + 1` of the row-major `34 × 34` height data |
| Demo.SampleOffsetInjective | src/main.cpp:42 | two positions never read the same sample |
| Demo.Heights | src/main.cpp:26-28 | the filled height data has `34 × 34` samples |
| Demo.FillHeights | src/main.cpp:26-34 | the nested loops store the height of `(x, y)` at `y * 34 + x`, as `Heights` defines |
| Demo.SampleReadsShifted | src/main.cpp:41-44 | the sampler at `(x, y)` reads the height stored for `(x + 1, y + 1)` |
| Demo.QuadTopology | src/main.cpp:50-61 | the quad: four vertices, six indices all in range, two triangles of distinct corners sharing the edge 1–2, every vertex used |
| Demo.QuadWinding | src/main.cpp:50-61 | both triangles wind counter-clockwise |
| Demo.FrameRequests | src/main.cpp:93-98 | a frame makes six draws |
| Demo.Game.constructor | src/main.cpp:121 | `Game g;` starts with three empty meshes |
| Demo.Game.Init | src/main.cpp:20-64 | when the loader throws, `init` stops with nothing changed; otherwise the model is the loaded mesh or stays as it was, the ground gets the checker texture, the test mesh is the quad |
| Demo.Game.Draw | src/main.cpp:66-102 | one pass over the frame's six draws |
| Demo.TestMeshDraws | src/main.cpp:50-61 | the quad has six indices to draw |
| Demo.DemoFrameRunsFrameOnce | src/main.cpp:93-98 | every demo frame runs `frame` exactly once |
| Demo.FailedLoadDrawsGroundAndTest | src/main.cpp:24 | when the model fails to load only the ground and the quad are submitted, both with the white texture |
| Demo.DemoRun | src/main.cpp:119-127 | the demo draws and swaps once per iteration, never updates, forwards every event; `exec` adds user init but no user release |

## Left out

- SDL, GL, glew and Lua setup and release (`Init`, `Release`, `Runner::init`, `Runner::release`). They are foreign-library plumbing; in the traces they are single events.
- The sokol calls themselves:
  - pass actions;
  - buffer and pipeline descriptors;
  - `MakePipeline`, `MakeTextureRGBA` and the `AttrInfo` offset arithmetic.

  Draws are trace events and resources are ids.
- Floating point:
  - matrices, `SetCamera`, `SetLight` and the camera;
  - `sin` heights: `Demo.FillHeights` takes the height function as a parameter;
  - `stof` values: a loaded value is kept as the token it came from;
  - the `elapsed()` double: events carry the tick difference it divides by 100000;
  - the running duration averages;
  - the mouse-sensitivity update of `event`.
- `Transform` is an integer translation, which covers every transform the demo uses.
- `MakeHMap` is only declared, so it is not part of this model. `Demo.Game.Init` takes the ground mesh it returns as a parameter.
- The `pip` field of `Mesh`. Nothing in the draw path reads it.
- File I/O:
  - opening the file: `LoadMesh` takes `None`, or the file's lines;
  - the 512-byte `getline` buffer: lines are unbounded;
  - the exceptions `stoi` and `stof` throw on bad tokens: `stoi` is a total parameter and `stof` is kept symbolic.
- `Ply.LoadMesh`, `Ply.ReadHeader` and `Ply.LoadLines` require the header to be one the model determines (`Ply.HeaderDefined`). This excludes two cases:
  - a `property` line before any `element` line: `format.back()` on an empty vector is undefined behaviour;
  - a line that is exactly `element` or `property`: the text after the keyword (`buffer + 8`, `buffer + 9`) starts past the line's terminator in the 512-byte buffer, so it is the stale tail of an earlier, longer line, and undefined only when no earlier line reached that far. The model does not track the buffer's history, so it excludes the case.
- Ply.ReadFaces: the `int` overflow of `3 * part.first` for face counts above 715 827 882 or below -715 827 882 is undefined behaviour and not modelled; the model takes the product unbounded, so a negative count always throws.
- Ply.ReadVertices: `std::bad_alloc` for a count too large to reserve is not modelled.
- Ply.LoadMesh: of the exceptions a count can cause, only the `std::length_error` of a negative count is modelled.
- Runner.Exec: a callback that throws is not modelled. In the demo, a `std::length_error` out of `init` (the `threw` of `Demo.Game.Init`) would leave `exec` and end the program before the loop.
- Ply.BuildMap keeps the first of two entries with the same key, as libstdc++ and libc++ do; the standard leaves the choice open (LWG issue 2844). `PlyProperties.SourceTableSkipsV` rests on that choice.
- `EngineTypes.MakeMesh`: `&vertice[0]` on an empty vector, and `int` overflow of the index count, are not modelled.
- Event polling is reduced to the number of events pending in each iteration; event contents and `SDL_QuitRequested` are not modelled. The loop runs one iteration per clock reading.
- The clock is unbounded: the 64-bit wrap of `stm_now` ticks is not modelled, and `dt` is given as an `unsigned int`.
- `Demo.SampleOffset` requires positions from -1 to `hmsz - 2`, the grid size plus the ring. Which positions `MakeHMap` samples is not in the shown source.
- `Demo.Game.Init` loads with the corrected property table (see Findings), not the table as written.
- The older copies in src/pipoengine.inl of `LoadMesh` (lines 174-270), `DrawMesh` (272-294), `RenderMain` (302-319), `loop` (398-462) and `exec` (464-475) match the modelled ones. The one difference: the event callback receives the `SDL_Event` rather than `EventParams`, which the model does not see.
- The commented-out `Game` state-machine code is left out; it is dead.

## Findings

| source | as written | input that shows it | evidently intended | confidence | as-written member | corrected member |
|---|---|---|---|---|---|---|
| src/pipoengine.cpp:54-55 | the property table lists `"u"` twice; the standard leaves open which duplicate the initializer-list constructor keeps (LWG issue 2844), and libstdc++ and libc++ keep the first, which the model follows, so the second texture coordinate has no key | a vertex group declaring `property float u` then `property float v` | the second entry is `"v"`, mapping to the second texture coordinate | not executed | PlyProperties.SourceTableSkipsV | PlyProperties.IntendedTableReadsV |
| src/pipoengine.cpp:105-108 | every loaded vertex gets 0.5 as its second texture coordinate, and a `v` property takes no token, shifting the later properties | the vertex line `t0 t1` under properties `u v` gives `uv = (t0, 0.5)` | `uv = (t0, t1)` | not executed | PlyProperties.TextureCoordinatesAsWritten | PlyProperties.TextureCoordinates |
