/**
 * include/mesh.h: `Vertex`, the interleaved vertex layout, and `Mesh`, which
 * owns one vertex array and two buffers, uploads its geometry once and
 * draws it with a program.
 *
 * The three names start as `~0` and stay so for a mesh without indices. Each
 * `glGen*` may be refused on its own, so a mesh can hold any mix of real
 * names and sentinels; its destructor releases every real one.
 */
module Meshes {
  import opened Common
  import opened Gpu
  import Textures
  import Shaders

  datatype Vertex = Vertex(position: Vec3, normal: Vec3, coord: Vec2)

  /** `sizeof(float)`, `sizeof(unsigned)` and `sizeof(Vertex)`: a vertex is eight packed floats. */
  const FloatSize: nat := 4
  const IndexSize: nat := 4
  const VertexSize: nat := 32

  /** The floats of one vertex in memory order: position, normal, texture coordinate. */
  function Floats(v: Vertex): (r: seq<real>)
    ensures |r| * FloatSize == VertexSize
  {
    [v.position.x, v.position.y, v.position.z, v.normal.x, v.normal.y, v.normal.z, v.coord.x, v.coord.y]
  }

  /** The contents of the vertex buffer: `vertices.data()`, the vertices back to back. */
  function Packed(vs: seq<Vertex>): (r: seq<real>)
    ensures |r| * FloatSize == |vs| * VertexSize
  {
    if vs == [] then [] else Packed(vs[..|vs| - 1]) + Floats(vs[|vs| - 1])
  }

  /** Vertex `i` occupies floats `8 i` to `8 i + 8` of the packed buffer. */
  lemma {:induction false} PackedAt(vs: seq<Vertex>, i: nat)
    requires i < |vs|
    ensures |Packed(vs)| == 8 * |vs|
    ensures Packed(vs)[8 * i .. 8 * i + 8] == Floats(vs[i])
    decreases |vs|
  {
    var init := vs[..|vs| - 1];
    assert Packed(vs) == Packed(init) + Floats(vs[|vs| - 1]);
    if i < |vs| - 1 {
      PackedAt(init, i);
      assert init[i] == vs[i];
    }
  }

  /**
   * The three `glVertexAttribPointer` calls: location 0 reads the position,
   * 1 the normal (at `offsetof(Vertex, normal)`), 2 the texture coordinate,
   * each with stride `sizeof(Vertex)`.
   */
  const Attribs: seq<Cmd> := [VertexAttrib(0, 3, VertexSize, 0), VertexAttrib(1, 3, VertexSize, 12), VertexAttrib(2, 2, VertexSize, 24)]

  /** What attribute `a` reads for vertex `i`: `components` floats starting at byte `i * stride + offset`. */
  function Fetch(buf: seq<real>, a: Cmd, i: nat): (r: seq<real>)
    requires a.VertexAttrib? && a.offset % FloatSize == 0 && a.stride % FloatSize == 0
    requires (i * a.stride + a.offset) / FloatSize + a.components <= |buf|
    ensures |r| == a.components
  {
    var start := (i * a.stride + a.offset) / FloatSize;
    buf[start .. start + a.components]
  }

  /** The attribute pointers decode the packed buffer: for every vertex each location reads back its own field. */
  lemma AttribsRead(vs: seq<Vertex>, i: nat)
    requires i < |vs|
    ensures (i * VertexSize + 24) / FloatSize + 2 <= |Packed(vs)|
    ensures Fetch(Packed(vs), Attribs[0], i) == [vs[i].position.x, vs[i].position.y, vs[i].position.z]
    ensures Fetch(Packed(vs), Attribs[1], i) == [vs[i].normal.x, vs[i].normal.y, vs[i].normal.z]
    ensures Fetch(Packed(vs), Attribs[2], i) == [vs[i].coord.x, vs[i].coord.y]
  {
    PackedAt(vs, i);
    var buf := Packed(vs);
    var f := Floats(vs[i]);
    assert buf[8 * i .. 8 * i + 8] == f;
    OffsetFloats(i);
    SliceOfSlice(buf, 8 * i, f, 0, 3);
    SliceOfSlice(buf, 8 * i, f, 3, 6);
    SliceOfSlice(buf, 8 * i, f, 6, 8);
  }

  /** A piece of a slice is the matching slice of the whole. */
  lemma SliceOfSlice(buf: seq<real>, at: nat, f: seq<real>, lo: nat, hi: nat)
    requires lo <= hi <= |f| && at + |f| <= |buf| && buf[at .. at + |f|] == f
    ensures buf[at + lo .. at + hi] == f[lo..hi]
  {
    var piece, whole := buf[at + lo .. at + hi], buf[at .. at + |f|];
    assert forall k :: 0 <= k < |piece| ==> piece[k] == whole[lo + k];
  }

  /** The byte offsets of the three attributes of vertex `i`, counted in floats. */
  lemma OffsetFloats(i: nat)
    ensures (i * VertexSize + 0) / FloatSize == 8 * i
    ensures (i * VertexSize + 12) / FloatSize == 8 * i + 3
    ensures (i * VertexSize + 24) / FloatSize == 8 * i + 6
  {
    assert i * VertexSize == 4 * (8 * i);
  }

  /** The attributes are laid end to end and fill the vertex exactly: no float is read twice or skipped. */
  lemma AttribsTile()
    ensures forall k :: 0 <= k < |Attribs| ==> Attribs[k].VertexAttrib? && Attribs[k].index == k
    ensures Attribs[0].offset == 0
    ensures forall k :: 0 <= k < |Attribs| - 1 ==> Attribs[k].offset + Attribs[k].components * FloatSize == Attribs[k + 1].offset
    ensures Attribs[2].offset + Attribs[2].components * FloatSize == VertexSize
  {
  }

  /** The lease map after a wrapper takes the lease on `h`, if `h` is a real name. */
  ghost function Grant(live: map<Handle, Lease>, h: Handle, kind: Kind, holder: object): map<Handle, Lease> {
    if h != Sentinel then live[h := Lease(kind, holder)] else live
  }

  /** `h` is `~0` or a live name of kind `kind` leased to `holder`. */
  ghost predicate Owns(dev: Device, h: Handle, kind: Kind, holder: object)
    reads dev`live
  {
    h != Sentinel ==> h in dev.live && dev.live[h] == Lease(kind, holder)
  }

  /** Taking the three leases twice is taking them once, for the second holder. */
  lemma Regrant(live: map<Handle, Lease>, vao: Handle, vbo: Handle, ebo: Handle, first: object, second: object)
    ensures Grant(Grant(Grant(Grant(Grant(Grant(live, vao, VertexArrayObj, first), vbo, BufferObj, first), ebo, BufferObj, first),
              vao, VertexArrayObj, second), vbo, BufferObj, second), ebo, BufferObj, second)
            == Grant(Grant(Grant(live, vao, VertexArrayObj, second), vbo, BufferObj, second), ebo, BufferObj, second)
  {
  }

  /** Passes the leases on a mesh's real names from `from` to `to`. */
  ghost method TakeLeases(dev: Device, vao: Handle, vbo: Handle, ebo: Handle, from: object, to: object)
    requires dev.Valid()
    requires Owns(dev, vao, VertexArrayObj, from) && Owns(dev, vbo, BufferObj, from) && Owns(dev, ebo, BufferObj, from)
    requires vbo != Sentinel ==> vbo != ebo
    modifies dev`live
    ensures dev.Valid()
    ensures dev.live == Grant(Grant(Grant(old(dev.live), vao, VertexArrayObj, to), vbo, BufferObj, to), ebo, BufferObj, to)
    ensures Owns(dev, vao, VertexArrayObj, to) && Owns(dev, vbo, BufferObj, to) && Owns(dev, ebo, BufferObj, to)
  {
    if vao != Sentinel {
      dev.Transfer(vao, VertexArrayObj, from, to);
    }
    if vbo != Sentinel {
      dev.Transfer(vbo, BufferObj, from, to);
    }
    if ebo != Sentinel {
      dev.Transfer(ebo, BufferObj, from, to);
    }
  }

  /** The upload the constructor issues once it has asked for its three names. */
  function UploadCmds(vao: Handle, vbo: Handle, ebo: Handle, vertexCount: nat, indexCount: nat): seq<Cmd> {
    [BindVertexArray(vao), BindBuffer(ArrayBuffer, vbo), BufferData(ArrayBuffer, vertexCount * VertexSize),
     BindBuffer(ElementArrayBuffer, ebo), BufferData(ElementArrayBuffer, indexCount * IndexSize)]
    + Attribs + [BindVertexArray(0)]
  }

  /** Everything the constructor issues: nothing at all for an empty index list. */
  function BuildCmds(vao: Handle, vbo: Handle, ebo: Handle, vertexCount: nat, indexCount: nat): seq<Cmd> {
    if indexCount == 0 then []
    else [Gen(VertexArrayObj, vao), Gen(BufferObj, vbo), Gen(BufferObj, ebo)] + UploadCmds(vao, vbo, ebo, vertexCount, indexCount)
  }

  /** The release of one name by a destructor that checks it first. */
  function DeleteIfReal(kind: Kind, h: Handle): seq<Cmd> {
    if h != Sentinel then [Delete(kind, h)] else []
  }

  /** The commands of the corrected destructor: each real name is deleted, each sentinel skipped. */
  function DestroyCmds(vao: Handle, vbo: Handle, ebo: Handle): seq<Cmd> {
    DeleteIfReal(VertexArrayObj, vao) + DeleteIfReal(BufferObj, vbo) + DeleteIfReal(BufferObj, ebo)
  }

  /** The commands of `~Mesh()` as written: all three deletes when the vertex array is real, none otherwise. */
  function DestroyCmdsAsWritten(vao: Handle, vbo: Handle, ebo: Handle): seq<Cmd> {
    if vao != Sentinel then [Delete(VertexArrayObj, vao), Delete(BufferObj, vbo), Delete(BufferObj, ebo)] else []
  }

  /** Where all three names are real or all three are sentinels, the destructor as written is the corrected one. */
  lemma DestructorsAgree(vao: Handle, vbo: Handle, ebo: Handle)
    requires (vao == Sentinel <==> vbo == Sentinel) && (vbo == Sentinel <==> ebo == Sentinel)
    ensures DestroyCmdsAsWritten(vao, vbo, ebo) == DestroyCmds(vao, vbo, ebo)
  {
  }

  /** The three `glGen*` calls of the constructor, each leased to the device until the mesh exists. */
  method Generate(dev: Device) returns (vao: Handle, vbo: Handle, ebo: Handle)
    requires dev.Valid()
    modifies dev`nextName, dev`live, dev`allocations, dev`trace
    ensures dev.Valid()
    ensures vao == Sentinel <==> old(dev.allocations) in dev.refused
    ensures vbo == Sentinel <==> old(dev.allocations) + 1 in dev.refused
    ensures ebo == Sentinel <==> old(dev.allocations) + 2 in dev.refused
    ensures vao != Sentinel ==> vao !in old(dev.live)
    ensures vbo != Sentinel ==> vbo !in old(dev.live) && vbo != vao
    ensures ebo != Sentinel ==> ebo !in old(dev.live) && ebo != vao && ebo != vbo
    ensures dev.live == Grant(Grant(Grant(old(dev.live), vao, VertexArrayObj, dev), vbo, BufferObj, dev), ebo, BufferObj, dev)
    ensures dev.allocations == old(dev.allocations) + 3
    ensures dev.trace == old(dev.trace) + [Gen(VertexArrayObj, vao), Gen(BufferObj, vbo), Gen(BufferObj, ebo)]
  {
    ghost var l0 := dev.live;
    vao := dev.Allocate(VertexArrayObj, dev);
    ghost var l1 := dev.live;
    vbo := dev.Allocate(BufferObj, dev);
    ghost var l2 := dev.live;
    ebo := dev.Allocate(BufferObj, dev);
    assert vao != Sentinel ==> vao in l1;
    assert vbo != Sentinel ==> vbo in l2;
  }

  /** The upload: bind the vertex array, fill both buffers, describe the three attributes, unbind. */
  method Upload(dev: Device, vao: Handle, vbo: Handle, ebo: Handle, vertexCount: nat, indexCount: nat)
    requires dev.Valid()
    modifies dev`trace, dev`gl
    ensures dev.Valid()
    ensures dev.trace == old(dev.trace) + UploadCmds(vao, vbo, ebo, vertexCount, indexCount)
    ensures dev.gl == old(dev.gl).(vertexArray := 0, buffers := old(dev.gl).buffers[ArrayBuffer := vbo][ElementArrayBuffer := ebo])
  {
    ghost var t0 := dev.trace;
    FillBuffers(dev, vao, vbo, ebo, vertexCount, indexCount);
    ghost var t1 := dev.trace;
    DescribeLayout(dev);
    ghost var t2 := dev.trace;
    dev.Issue(BindVertexArray(0));
    ghost var fill := UploadCmds(vao, vbo, ebo, vertexCount, indexCount)[..5];
    assert t1 == t0 + fill && t2 == t1 + Attribs;
    assert dev.trace == t0 + (fill + Attribs + [BindVertexArray(0)]);
  }

  /** Binds the vertex array and fills its two buffers. */
  method FillBuffers(dev: Device, vao: Handle, vbo: Handle, ebo: Handle, vertexCount: nat, indexCount: nat)
    requires dev.Valid()
    modifies dev`trace, dev`gl
    ensures dev.Valid()
    ensures dev.trace == old(dev.trace) + [BindVertexArray(vao), BindBuffer(ArrayBuffer, vbo), BufferData(ArrayBuffer, vertexCount * VertexSize),
                                           BindBuffer(ElementArrayBuffer, ebo), BufferData(ElementArrayBuffer, indexCount * IndexSize)]
    ensures dev.gl == old(dev.gl).(vertexArray := vao, buffers := old(dev.gl).buffers[ArrayBuffer := vbo][ElementArrayBuffer := ebo])
  {
    ghost var g0 := dev.gl;
    dev.Issue(BindVertexArray(vao));
    dev.Issue(BindBuffer(ArrayBuffer, vbo));
    assert dev.gl == g0.(vertexArray := vao, buffers := g0.buffers[ArrayBuffer := vbo]);
    dev.Emit(BufferData(ArrayBuffer, vertexCount * VertexSize));
    dev.Issue(BindBuffer(ElementArrayBuffer, ebo));
    assert dev.gl == g0.(vertexArray := vao, buffers := g0.buffers[ArrayBuffer := vbo][ElementArrayBuffer := ebo]);
    dev.Emit(BufferData(ElementArrayBuffer, indexCount * IndexSize));
  }

  /** The three attribute pointers, enabled in order. */
  method DescribeLayout(dev: Device)
    requires dev.Valid()
    modifies dev`trace
    ensures dev.trace == old(dev.trace) + Attribs
  {
    dev.Emit(VertexAttrib(0, 3, VertexSize, 0));
    dev.Emit(VertexAttrib(1, 3, VertexSize, 12));
    dev.Emit(VertexAttrib(2, 2, VertexSize, 24));
  }

  /** In state `g`, uniform `name` of program `p` (at location `loc`) reads `v`, if the program has it. */
  ghost predicate Sees(g: GlState, loc: int, p: Handle, name: string, v: Value) {
    loc >= 0 ==> (p, name) in g.uniforms && g.uniforms[(p, name)] == v
  }

  /** `set` adds uniform traffic and at most a `glUseProgram`: no render pass. */
  lemma SetQuiet(t: seq<Cmd>, active: Handle, uid: Handle, cache: map<string, int>, name: string, loc: int, v: Value)
    ensures Passes(t + Shaders.ApplyCmds(active, uid) + Shaders.LookupCmds(cache, uid, name) + [Uniform(loc, name, v)]) == Passes(t)
  {
    var a := Shaders.ApplyCmds(active, uid);
    var l := Shaders.LookupCmds(cache, uid, name);
    QuietAppend(t, a);
    QuietAppend(t + a, l);
    QuietAppend(t + a + l, [Uniform(loc, name, v)]);
  }

  /** `Mesh`: the geometry of one drawable, its two optional textures and its model matrix. */
  class Mesh {
    const dev: Device
    const diffuse: Textures.Texture?
    const specular: Textures.Texture?
    const model: Transform
    const indiceNum: nat
    /** The lists the constructor uploaded into `vbo` and `ebo`. */
    ghost const vertices: seq<Vertex>
    ghost const indices: seq<nat>
    var vao: Handle
    var vbo: Handle
    var ebo: Handle

    /** Each real name is live under this mesh's lease; the two buffers are different names. */
    ghost predicate Valid()
      reads this, dev`live
    {
      Owns(dev, vao, VertexArrayObj, this) && Owns(dev, vbo, BufferObj, this) && Owns(dev, ebo, BufferObj, this) &&
      (vbo != Sentinel ==> vbo != ebo)
    }

    /**
     * `Mesh(vertices, indices, diffuse, specular, model)`: without indices it
     * asks for nothing; otherwise it asks for three names (each of which may
     * be refused), uploads both lists and describes the vertex layout.
     */
    constructor (dev: Device, vertices: seq<Vertex>, indices: seq<nat>, diffuse: Textures.Texture?, specular: Textures.Texture?, model: Transform)
      requires dev.Valid()
      modifies dev`nextName, dev`live, dev`allocations, dev`trace, dev`gl
      ensures this.dev == dev && dev.Valid() && Valid()
      ensures this.diffuse == diffuse && this.specular == specular && this.model == model && indiceNum == |indices|
      ensures this.vertices == vertices && this.indices == indices
      ensures |indices| == 0 ==> vao == Sentinel && vbo == Sentinel && ebo == Sentinel
      ensures |indices| > 0 ==> (vao == Sentinel <==> old(dev.allocations) in dev.refused)
      ensures |indices| > 0 ==> (vbo == Sentinel <==> old(dev.allocations) + 1 in dev.refused)
      ensures |indices| > 0 ==> (ebo == Sentinel <==> old(dev.allocations) + 2 in dev.refused)
      ensures vao != Sentinel ==> vao !in old(dev.live)
      ensures vbo != Sentinel ==> vbo !in old(dev.live)
      ensures ebo != Sentinel ==> ebo !in old(dev.live)
      ensures dev.live == Grant(Grant(Grant(old(dev.live), vao, VertexArrayObj, this), vbo, BufferObj, this), ebo, BufferObj, this)
      ensures dev.allocations == old(dev.allocations) + (if |indices| > 0 then 3 else 0)
      ensures dev.trace == old(dev.trace) + BuildCmds(vao, vbo, ebo, |vertices|, |indices|)
      ensures dev.gl == if |indices| == 0 then old(dev.gl)
                        else old(dev.gl).(vertexArray := 0, buffers := old(dev.gl).buffers[ArrayBuffer := vbo][ElementArrayBuffer := ebo])
    {
      this.dev, this.diffuse, this.specular, this.model, indiceNum := dev, diffuse, specular, model, |indices|;
      this.vertices, this.indices := vertices, indices;
      var a, b, c := Sentinel, Sentinel, Sentinel;
      if |indices| > 0 {
        a, b, c := Generate(dev);
        Upload(dev, a, b, c, |vertices|, |indices|);
      }
      vao, vbo, ebo := a, b, c;
      new;
      Regrant(old(dev.live), vao, vbo, ebo, dev, this);
      TakeLeases(dev, vao, vbo, ebo, dev, this);
    }

    /** `Mesh(Mesh&&)`: copies everything, then sets the source's three names to `~0`. */
    constructor Moved(rhs: Mesh)
      requires rhs.dev.Valid() && rhs.Valid()
      modifies rhs`vao, rhs`vbo, rhs`ebo, rhs.dev`live
      ensures dev == rhs.dev && dev.Valid() && Valid() && rhs.Valid()
      ensures diffuse == rhs.diffuse && specular == rhs.specular && model == rhs.model && indiceNum == rhs.indiceNum
      ensures vertices == rhs.vertices && indices == rhs.indices
      ensures vao == old(rhs.vao) && vbo == old(rhs.vbo) && ebo == old(rhs.ebo)
      ensures rhs.vao == Sentinel && rhs.vbo == Sentinel && rhs.ebo == Sentinel
      ensures dev.live == Grant(Grant(Grant(old(rhs.dev.live), vao, VertexArrayObj, this), vbo, BufferObj, this), ebo, BufferObj, this)
    {
      dev, diffuse, specular, model, indiceNum := rhs.dev, rhs.diffuse, rhs.specular, rhs.model, rhs.indiceNum;
      vertices, indices := rhs.vertices, rhs.indices;
      vao, vbo, ebo := rhs.vao, rhs.vbo, rhs.ebo;
      new;
      TakeLeases(dev, vao, vbo, ebo, rhs, this);
      rhs.vao, rhs.vbo, rhs.ebo := Sentinel, Sentinel, Sentinel;
    }

    /**
     * `~Mesh()`, corrected: every real name is released, whichever of the
     * three allocations succeeded, and no sentinel is handed to `glDelete*`.
     */
    method Destroy()
      requires dev.Valid() && Valid()
      modifies dev`live, dev`trace
      ensures dev.Valid()
      ensures dev.live == old(dev.live) - {vao, vbo, ebo}
      ensures dev.trace == old(dev.trace) + DestroyCmds(vao, vbo, ebo)
    {
      dev.SentinelNotLive();
      if vao != Sentinel {
        dev.Release(VertexArrayObj, vao, this);
      }
      if vbo != Sentinel {
        dev.Release(BufferObj, vbo, this);
      }
      if ebo != Sentinel {
        dev.Release(BufferObj, ebo, this);
      }
    }

    /**
     * The state `draw` leaves for the shader: each present texture sits on its
     * unit (diffuse 0, specular 1) and its sampler uniform names that unit.
     */
    ghost predicate MaterialReady(g: GlState, prog: Shaders.Program)
      reads this, diffuse, specular
    {
      (diffuse != null ==>
         0 in g.units && g.units[0] == Binding(Texture2D, diffuse.uid) &&
         Sees(g, dev.locate(prog.uid, "material.diffuse"), prog.uid, "material.diffuse", IntV(0))) &&
      (specular != null ==>
         1 in g.units && g.units[1] == Binding(Texture2D, specular.uid) &&
         Sees(g, dev.locate(prog.uid, "material.specular"), prog.uid, "material.specular", IntV(1)))
    }

    /** Setting the model matrix and rebinding the vertex array leave the material in place. */
    lemma MaterialKept(g: GlState, h: GlState, prog: Shaders.Program, loc: int, v: Value)
      requires MaterialReady(g, prog)
      requires h.units == g.units && h.uniforms == Shaders.Written(g.uniforms, prog.uid, loc, "model", v)
      ensures MaterialReady(h, prog)
    {
    }

    /** The uniforms `draw` writes: the two material samplers and the model matrix. */
    static const DrawNames: set<string> := {"material.diffuse", "material.specular", "model"}

    /**
     * The material part of `draw`: each present texture is bound to its unit
     * (diffuse 0, specular 1) and its sampler uniform set to that unit.
     */
    method BindMaterial(prog: Shaders.Program)
      requires dev.Valid() && prog.dev == dev && prog.Valid()
      requires diffuse != null ==> diffuse.dev == dev
      requires specular != null ==> specular.dev == dev
      modifies prog`cache, prog.cell, dev`trace, dev`gl, dev`log
      ensures dev.Valid() && prog.Valid()
      ensures old(dev.trace) <= dev.trace && Passes(dev.trace) == Passes(old(dev.trace))
      ensures diffuse == null && specular == null ==> dev.gl == old(dev.gl)
      ensures dev.gl.vertexArray == old(dev.gl.vertexArray)
      ensures MaterialReady(dev.gl, prog)
      ensures Shaders.KeepsOthers(old(dev.gl.uniforms), dev.gl.uniforms, DrawNames)
      ensures dev.live == old(dev.live) && dev.allocations == old(dev.allocations)
    {
      if diffuse != null {
        BindSampler(diffuse, 0, "material.diffuse", prog);
      }
      if specular != null {
        ghost var g := dev.gl;
        BindSampler(specular, 1, "material.specular", prog);
        assert diffuse != null ==> g.units[0] == dev.gl.units[0];
      }
    }

    /**
     * `draw(prog)`: for a mesh with indices, exactly one render pass, a
     * `glDrawElements` of all its indices with `prog` and this mesh's vertex
     * array; at that point the textures sit on units 0 and 1, the samplers
     * and the model matrix are set, and the vertex array is unbound after.
     * An empty mesh issues nothing.
     */
    method Draw(prog: Shaders.Program)
      requires dev.Valid() && Valid() && prog.dev == dev && prog.Valid()
      requires diffuse != null ==> diffuse.dev == dev
      requires specular != null ==> specular.dev == dev
      modifies prog`cache, prog.cell, dev`trace, dev`gl, dev`log
      ensures dev.Valid() && Valid() && prog.Valid()
      ensures indiceNum == 0 ==> dev.trace == old(dev.trace) && dev.gl == old(dev.gl) && dev.log == old(dev.log)
      ensures old(dev.trace) <= dev.trace
      ensures Passes(dev.trace) == Passes(old(dev.trace)) + (if indiceNum > 0 then [DrawElements(prog.uid, vao, indiceNum)] else [])
      ensures indiceNum > 0 ==> dev.trace[|dev.trace| - 1] == BindVertexArray(0)
      ensures indiceNum > 0 ==> dev.gl.program == prog.uid && dev.gl.vertexArray == 0
      ensures indiceNum > 0 ==> MaterialReady(dev.gl, prog)
      ensures indiceNum > 0 ==> Sees(dev.gl, dev.locate(prog.uid, "model"), prog.uid, "model", Mat4V(model))
      ensures Shaders.KeepsOthers(old(dev.gl.uniforms), dev.gl.uniforms, DrawNames)
      ensures dev.live == old(dev.live) && dev.allocations == old(dev.allocations)
    {
      if indiceNum > 0 {
        ghost var u0 := dev.gl.uniforms;
        BindMaterial(prog);
        ghost var g1 := dev.gl;
        SetQuietly(prog, "model", Mat4V(model));
        Shaders.WrittenKeepsOthers(g1.uniforms, prog.uid, dev.locate(prog.uid, "model"), "model", Mat4V(model), DrawNames);
        Shaders.KeepsOthersJoin(u0, g1.uniforms, dev.gl.uniforms, DrawNames, DrawNames);
        DrawCall(dev, vao, indiceNum);
        MaterialKept(g1, dev.gl, prog, dev.locate(prog.uid, "model"), Mat4V(model));
      }
    }
  }

  /** `glBindVertexArray(vao)`, `glDrawElements`, `glBindVertexArray(0)`: one render pass with the bound program. */
  method DrawCall(dev: Device, vao: Handle, count: nat)
    requires dev.Valid()
    modifies dev`trace, dev`gl
    ensures dev.Valid()
    ensures dev.trace == old(dev.trace) + [BindVertexArray(vao), DrawElements(old(dev.gl).program, vao, count), BindVertexArray(0)]
    ensures Passes(dev.trace) == Passes(old(dev.trace)) + [DrawElements(old(dev.gl).program, vao, count)]
    ensures dev.gl == old(dev.gl).(vertexArray := 0)
    ensures dev.live == old(dev.live) && dev.allocations == old(dev.allocations) && dev.log == old(dev.log)
  {
    ghost var t0 := dev.trace;
    dev.Issue(BindVertexArray(vao));
    dev.Draw(count);
    dev.Issue(BindVertexArray(0));
    var d := DrawElements(old(dev.gl).program, vao, count);
    assert dev.trace == t0 + [BindVertexArray(vao)] + [d] + [BindVertexArray(0)];
    QuietAppend(t0, [BindVertexArray(vao)]);
    PassesAppend(t0 + [BindVertexArray(vao)], [d]);
    assert Passes([d]) == [d] by {
      assert [d][..0] == [];
    }
    QuietAppend(t0 + [BindVertexArray(vao)] + [d], [BindVertexArray(0)]);
  }

  /** `prog.set(name, v)` seen from a draw: the program is bound, `name` reads `v`, and no render pass is added. */
  method SetQuietly(prog: Shaders.Program, name: string, v: Value)
    requires prog.dev.Valid() && prog.Valid()
    modifies prog`cache, prog.cell, prog.dev`trace, prog.dev`gl, prog.dev`log
    ensures prog.dev.Valid() && prog.Valid()
    ensures old(prog.dev.trace) <= prog.dev.trace && Passes(prog.dev.trace) == Passes(old(prog.dev.trace))
    ensures prog.dev.gl == old(prog.dev.gl).(program := prog.uid,
              uniforms := Shaders.Written(old(prog.dev.gl).uniforms, prog.uid, prog.dev.locate(prog.uid, name), name, v))
    ensures prog.dev.live == old(prog.dev.live) && prog.dev.allocations == old(prog.dev.allocations)
  {
    ghost var t0 := prog.dev.trace;
    ghost var active, cache := prog.cell.uid, prog.cache;
    prog.Set(name, v);
    SetQuiet(t0, active, prog.uid, cache, name, prog.dev.locate(prog.uid, name), v);
  }

  /** `tex.bind(unit)` followed by `prog.set(name, unit)`: the sampler `name` reads texture unit `unit`, which holds `tex`. */
  method BindSampler(tex: Textures.Texture, unit: nat, name: string, prog: Shaders.Program)
    requires tex.dev.Valid() && prog.dev == tex.dev && prog.Valid() && unit < 15
    modifies prog`cache, prog.cell, tex.dev`trace, tex.dev`gl, tex.dev`log
    ensures tex.dev.Valid() && prog.Valid()
    ensures old(tex.dev.trace) <= tex.dev.trace && Passes(tex.dev.trace) == Passes(old(tex.dev.trace))
    ensures tex.dev.gl == BindUnit(old(tex.dev.gl), unit, Texture2D, tex.uid).(program := prog.uid,
              uniforms := Shaders.Written(old(tex.dev.gl).uniforms, prog.uid, tex.dev.locate(prog.uid, name), name, IntV(unit)))
    ensures tex.dev.live == old(tex.dev.live) && tex.dev.allocations == old(tex.dev.allocations)
  {
    var dev := tex.dev;
    ghost var t0 := dev.trace;
    tex.Bind(unit);
    QuietAppend(t0, Textures.BindCmds(unit, Texture2D, tex.uid));
    SetQuietly(prog, name, IntV(unit));
  }

  /**
   * A mesh whose `glGenVertexArrays` is refused while its `glGenBuffers` is
   * not: the destructor as written deletes nothing, so the vertex buffer's
   * name stays live under the mesh's lease with nobody left to release it;
   * the corrected destructor deletes it.
   */
  method DestructorAsWrittenLeaks(dev: Device) returns (m: Mesh)
    requires dev.Valid()
    requires dev.allocations in dev.refused && dev.allocations + 1 !in dev.refused
    modifies dev`nextName, dev`live, dev`allocations, dev`trace, dev`gl
    ensures m.vao == Sentinel && m.vbo != Sentinel
    ensures m.vbo in dev.live && dev.live[m.vbo] == Lease(BufferObj, m)
    ensures Delete(BufferObj, m.vbo) !in DestroyCmdsAsWritten(m.vao, m.vbo, m.ebo)
    ensures Delete(BufferObj, m.vbo) in DestroyCmds(m.vao, m.vbo, m.ebo)
  {
    m := new Mesh(dev, [], [0], null, null, []);
    assert DestroyCmds(m.vao, m.vbo, m.ebo)[0] == Delete(BufferObj, m.vbo);
  }
}
