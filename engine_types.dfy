/** The plain data of the engine header: GPU handles, meshes, transforms and
    the abstract GPU command events that drawing emits. */
module EngineTypes {

  /** `uint32_t`, the width of sokol resource ids and of the loop counters. */
  newtype u32 = x: int | 0 <= x < 0x1_0000_0000

  /** `uint16_t`, the index type of every index buffer. */
  newtype u16 = x: int | 0 <= x < 0x1_0000

  /** `~0u`: the id `RenderMain` stores in `lastPip` so that no real pipeline matches it. */
  const Sentinel: u32 := 0xFFFF_FFFF

  /** Unsigned 32-bit increment by `k`, with the wrap-around of `unsigned int`. */
  function AddWrap(x: u32, k: nat): (r: u32)
    ensures r as int == (x as int + k) % 0x1_0000_0000
  {
    ((x as int + k) % 0x1_0000_0000) as u32
  }

  /** Conversion of an `int` to `uint16_t` (modular, as C++ defines it). */
  function ToU16(x: int): (r: u16)
    ensures r as int == x % 0x1_0000
    ensures 0 <= x < 0x1_0000 ==> r as int == x
  {
    (x % 0x1_0000) as u16
  }

  /** A world transform. Matrices are floating point and not modelled; the
      demo only ever passes translations by whole numbers, which this keeps. */
  datatype Transform = Translate(x: int, y: int, z: int)

  /** `Mesh`: a diffuse texture id (set only by the demo; the draw path
      never reads it), the vertex and index buffer ids and the index count
      `pcount`. The default `Mesh{}` is all zeroes. */
  datatype Mesh = Mesh(diffuse: u32, vid: u32, iid: u32, pcount: int)

  const EmptyMesh: Mesh := Mesh(0, 0, 0, 0)

  /** `MakeMesh`: the buffers created for `vertices` and `indices` get the
      ids `vid` and `iid` (chosen by the GPU layer), and the mesh draws as
      many indices as it was given; the diffuse texture is left unset. */
  function MakeMesh<V>(vid: u32, iid: u32, vertices: seq<V>, indices: seq<u16>): (m: Mesh)
    ensures m.vid == vid && m.iid == iid && m.diffuse == 0
    ensures m.pcount == |indices|
  {
    Mesh(0, vid, iid, |indices|)
  }

  /** One mesh drawn with one transform: a call `DrawMesh(ctx, mesh, t)`
      issued by the callback that `RenderMain` runs. */
  datatype DrawRequest = DrawRequest(mesh: Mesh, t: Transform)

  /** The GPU work issued by the render path, in order:
      `sg_begin_default_pass`, `sg_apply_pipeline`, the pipeline's `frame`
      callback, `sg_apply_bindings`, the pipeline's `draw` callback,
      `sg_draw`, `sg_end_pass` and `sg_commit`. */
  datatype GpuEvent =
    | BeginPass
    | ApplyPipeline(pip: u32)
    | Frame
    | Bind(vid: u32, iid: u32, tex: u32)
    | DrawCb(t: Transform)
    | Draw(count: int)
    | EndPass
    | Commit
}
