/**
 * include/shader.h: `Shader` (one compiled stage) and `Program` (a linked
 * program with a memoising uniform-location cache), plus the process-wide
 * "active program" cell that all programs share to skip redundant binds.
 */
module Shaders {
  import opened Common
  import opened Gpu
  import Fill

  /** The commands a shader constructor issues after `glCreateShader`. */
  function CompileCmds(uid: Handle, files: map<string, string>, path: string): seq<Cmd> {
    if path in files then [ShaderSource(uid, files[path]), CompileShader(uid)] else []
  }

  /** The diagnostic a shader constructor writes. */
  function CompileLog(files: map<string, string>, compilable: set<string>, path: string): seq<Diagnostic> {
    if path !in files then [FileReadFailed(path)]
    else if files[path] !in compilable then [CompileFailed(path)]
    else []
  }

  /** `Shader`: a stage created on the device, compiled from the file at `path`. */
  class Shader {
    const dev: Device
    const stage: StageType
    const path: string
    const uid: Handle
    const valid: bool

    /** The shader's name stays live under its lease until a valid shader is destroyed. */
    ghost predicate Valid()
      reads dev`live
    {
      uid in dev.live && dev.live[uid] == Lease(ShaderObj, this)
    }

    predicate Fail() {
      !valid
    }

    /**
     * `Shader(type, path)`: valid iff the file is readable and its text
     * compiles; an unreadable file is never handed to the compiler.
     */
    constructor (dev: Device, stage: StageType, path: string)
      requires dev.Valid()
      modifies dev`nextName, dev`live, dev`trace, dev`gl, dev`log
      ensures dev.Valid() && this.dev == dev && Valid()
      ensures this.stage == stage && this.path == path
      ensures valid <==> path in dev.files && dev.files[path] in dev.compilable
      ensures uid !in old(dev.live) && dev.live == old(dev.live)[uid := Lease(ShaderObj, this)]
      ensures dev.trace == old(dev.trace) + [Gen(ShaderObj, uid)] + CompileCmds(uid, dev.files, path)
      ensures dev.gl == if path in dev.files then old(dev.gl).(sources := old(dev.gl).sources[uid := dev.files[path]])
                        else old(dev.gl)
      ensures dev.log == old(dev.log) + CompileLog(dev.files, dev.compilable, path)
      ensures dev.allocations == old(dev.allocations)
    {
      this.dev, this.stage, this.path := dev, stage, path;
      var h := dev.Create(ShaderObj, dev);
      var ok := false;
      if path in dev.files {
        dev.Issue(ShaderSource(h, dev.files[path]));
        ok := dev.Compile(h);
        if !ok {
          dev.Report(CompileFailed(path));
        }
      } else {
        dev.Report(FileReadFailed(path));
      }
      uid, valid := h, ok;
      new;
      dev.Transfer(uid, ShaderObj, dev, this);
    }

    /** `~Shader()`: only a valid shader is deleted; the name of a failed one stays live. */
    method Destroy()
      requires dev.Valid() && Valid()
      modifies dev`live, dev`trace
      ensures dev.Valid()
      ensures dev.live == if valid then old(dev.live) - {uid} else old(dev.live)
      ensures dev.trace == old(dev.trace) + (if valid then [Delete(ShaderObj, uid)] else [])
      ensures dev.gl == old(dev.gl) && dev.log == old(dev.log) && dev.allocations == old(dev.allocations)
    {
      if valid {
        dev.Release(ShaderObj, uid, this);
      }
    }
  }

  /** The shader names of `shaders`, in order (`args.id()...`). */
  function Ids(shaders: seq<Shader>): (r: seq<Handle>)
    ensures |r| == |shaders|
    ensures forall i :: 0 <= i < |shaders| ==> r[i] == shaders[i].uid
  {
    if shaders == [] then [] else [shaders[0].uid] + Ids(shaders[1..])
  }

  function AttachCmds(p: Handle, ids: seq<Handle>): (r: seq<Cmd>)
    ensures |r| == |ids|
    ensures forall i :: 0 <= i < |ids| ==> r[i] == AttachShader(p, ids[i])
  {
    if ids == [] then [] else AttachCmds(p, ids[..|ids| - 1]) + [AttachShader(p, ids[|ids| - 1])]
  }

  /** The argument array of `link`: `fill_with_return` writes `args.id()` into consecutive slots. */
  method CollectIds(shaders: seq<Shader>) returns (ids: seq<Handle>)
    requires 1 <= |shaders|
    ensures ids == Ids(shaders)
  {
    var argList := new Handle[|shaders|];
    Fill.FillWithReturn((s: Shader) => s.uid, argList, 0, shaders);
    ids := argList[..];
  }

  /** The process-wide "currently used program" cell (`Program::active()`), `~0` at start. */
  class ActiveCell {
    var uid: Handle

    constructor ()
      ensures uid == Sentinel
    {
      uid := Sentinel;
    }
  }

  /** The cell never disagrees with the device about the bound program once it holds a name. */
  ghost predicate Coherent(cell: ActiveCell, dev: Device)
    reads cell, dev`gl
  {
    cell.uid == Sentinel || cell.uid == dev.gl.program
  }

  /** `apply()` issues `glUseProgram` only when the cell holds a different program. */
  function ApplyCmds(active: Handle, uid: Handle): seq<Cmd> {
    if active != uid then [UseProgram(uid)] else []
  }

  /** `get_uniform_location` asks the device only on a name's first lookup. */
  function LookupCmds(cache: map<string, int>, uid: Handle, name: string): seq<Cmd> {
    if name in cache then [] else [GetUniformLocation(uid, name)]
  }

  /** ... and logs an unknown name only on that first lookup. */
  function LookupLog(cache: map<string, int>, loc: int, name: string): seq<Diagnostic> {
    if name !in cache && loc < 0 then [InvalidUniformName(name)] else []
  }

  /** The uniform store after a write of `v` to `name` of program `p` at location `loc`. */
  function Written(u: map<(Handle, string), Value>, p: Handle, loc: int, name: string, v: Value): map<(Handle, string), Value> {
    if loc >= 0 then u[(p, name) := v] else u
  }

  /** Only uniforms named in `names` may differ: every other entry of `u0` is in `u1` with the same value. */
  ghost predicate KeepsOthers(u0: map<(Handle, string), Value>, u1: map<(Handle, string), Value>, names: set<string>) {
    forall k | k in u0 && k.1 !in names :: k in u1 && u1[k] == u0[k]
  }

  /** A write to a name in `names` keeps every uniform outside `names`. */
  lemma WrittenKeepsOthers(u: map<(Handle, string), Value>, p: Handle, loc: int, name: string, v: Value, names: set<string>)
    requires name in names
    ensures KeepsOthers(u, Written(u, p, loc, name, v), names)
  {
  }

  /** Two stores in a row that each keep the uniforms outside their names keep those outside both. */
  lemma KeepsOthersJoin(u0: map<(Handle, string), Value>, u1: map<(Handle, string), Value>, u2: map<(Handle, string), Value>,
                        a: set<string>, b: set<string>)
    requires KeepsOthers(u0, u1, a) && KeepsOthers(u1, u2, b)
    ensures KeepsOthers(u0, u2, a + b)
    ensures a <= b ==> KeepsOthers(u0, u2, b)
  {
  }

  /** `Program`: a program object with its uniform-location cache `mp`. */
  class Program {
    const dev: Device
    const cell: ActiveCell
    const uid: Handle
    var valid: bool
    var cache: map<string, int>

    /** The name is live under this program's lease and every cached location is the device's answer. */
    ghost predicate Valid()
      reads this, dev`live, dev`gl, cell
    {
      uid in dev.live && dev.live[uid] == Lease(ProgramObj, this) && uid != Sentinel &&
      (forall n :: n in cache ==> cache[n] == dev.locate(uid, n)) &&
      Coherent(cell, dev)
    }

    predicate Fail()
      reads this
    {
      !valid
    }

    /** `Program()`: a fresh program object with no shaders attached, valid from the start, with an empty cache. */
    constructor (dev: Device, cell: ActiveCell)
      requires dev.Valid() && Coherent(cell, dev)
      modifies dev`nextName, dev`live, dev`trace, dev`gl
      ensures dev.Valid() && this.dev == dev && this.cell == cell && Valid()
      ensures valid && cache == map[]
      ensures uid !in old(dev.live) && dev.live == old(dev.live)[uid := Lease(ProgramObj, this)]
      ensures dev.trace == old(dev.trace) + [Gen(ProgramObj, uid)]
      ensures dev.gl == old(dev.gl).(attached := old(dev.gl).attached[uid := []])
      ensures dev.log == old(dev.log) && dev.allocations == old(dev.allocations)
    {
      this.dev, this.cell := dev, cell;
      var h := dev.Create(ProgramObj, dev);
      uid, valid, cache := h, true, map[];
      new;
      dev.Transfer(uid, ProgramObj, dev, this);
    }

    /** `~Program()`. */
    method Destroy()
      requires dev.Valid() && Valid()
      modifies dev`live, dev`trace
      ensures dev.Valid()
      ensures dev.live == if valid then old(dev.live) - {uid} else old(dev.live)
      ensures dev.trace == old(dev.trace) + (if valid then [Delete(ProgramObj, uid)] else [])
      ensures dev.gl == old(dev.gl) && dev.log == old(dev.log) && dev.allocations == old(dev.allocations)
    {
      if valid {
        dev.Release(ProgramObj, uid, this);
      }
    }

    /**
     * `link(args...)`: collects the shader names with `fill_with_return`,
     * attaches them in argument order, links once and returns the link
     * status. `valid` is left alone: failure shows only in the result.
     */
    method Link(shaders: seq<Shader>) returns (ok: bool)
      requires dev.Valid() && Valid() && 1 <= |shaders|
      modifies dev`trace, dev`gl, dev`log
      ensures dev.Valid() && Valid() && valid == old(valid)
      ensures dev.gl == old(dev.gl).(attached := old(dev.gl).attached[uid := Attached(old(dev.gl), uid) + Ids(shaders)])
      ensures dev.trace == old(dev.trace) + AttachCmds(uid, Ids(shaders)) + [LinkProgram(uid)]
      ensures ok <==> AttachedSources(dev.gl, uid).Some? && AttachedSources(dev.gl, uid).value in dev.linkable
      ensures dev.log == old(dev.log) + (if ok then [] else [LinkFailed])
      ensures dev.live == old(dev.live) && dev.allocations == old(dev.allocations)
    {
      var ids := CollectIds(shaders);
      AttachAll(ids);
      ok := dev.Link(uid);
      if !ok {
        dev.Report(LinkFailed);
      }
    }

    /** The attach loop of `link`: one `glAttachShader` per name, in order. */
    method AttachAll(ids: seq<Handle>)
      requires dev.Valid() && Valid() && 1 <= |ids|
      modifies dev`trace, dev`gl
      ensures dev.Valid() && Valid()
      ensures dev.gl == old(dev.gl).(attached := old(dev.gl).attached[uid := Attached(old(dev.gl), uid) + ids])
      ensures dev.trace == old(dev.trace) + AttachCmds(uid, ids)
    {
      ghost var before := Attached(dev.gl, uid);
      ghost var g0 := dev.gl;
      for i := 0 to |ids|
        invariant dev.Valid() && Valid()
        invariant dev.trace == old(dev.trace) + AttachCmds(uid, ids[..i])
        invariant i == 0 ==> dev.gl == g0
        invariant i > 0 ==> dev.gl == g0.(attached := g0.attached[uid := before + ids[..i]])
      {
        ghost var prior := dev.gl;
        ghost var next := before + ids[..i + 1];
        assert next == (before + ids[..i]) + [ids[i]];
        assert Attached(prior, uid) == before + ids[..i];
        ghost var t := dev.trace;
        dev.Issue(AttachShader(uid, ids[i]));
        assert prior.attached[uid := next] == g0.attached[uid := next];
        assert ids[..i + 1][..i] == ids[..i];
        assert dev.trace == t + [AttachShader(uid, ids[i])];
      }
      assert ids[..|ids|] == ids;
    }

    /**
     * `apply()`: afterwards the shared cell and the device both hold this
     * program; `glUseProgram` is issued only if the cell held another one,
     * so a second consecutive `apply` issues nothing.
     */
    method Apply()
      requires dev.Valid() && Valid()
      modifies cell, dev`trace, dev`gl
      ensures dev.Valid() && Valid()
      ensures cell.uid == uid
      ensures dev.gl == old(dev.gl).(program := uid)
      ensures dev.trace == old(dev.trace) + ApplyCmds(old(cell.uid), uid)
      ensures dev.live == old(dev.live) && dev.log == old(dev.log) && dev.allocations == old(dev.allocations)
    {
      if cell.uid != uid {
        dev.Issue(UseProgram(uid));
        cell.uid := uid;
      }
    }

    /**
     * `get_uniform_location(name)`: the device's location for `name`, asked
     * for only when `name` is not cached yet; negative answers are cached too,
     * so an unknown name is logged once.
     */
    method GetUniformLocation(name: string) returns (loc: int)
      requires dev.Valid() && Valid()
      modifies this`cache, dev`trace, dev`log
      ensures dev.Valid() && Valid()
      ensures loc == dev.locate(uid, name)
      ensures cache == old(cache)[name := loc]
      ensures dev.trace == old(dev.trace) + LookupCmds(old(cache), uid, name)
      ensures dev.log == old(dev.log) + LookupLog(old(cache), loc, name)
      ensures dev.gl == old(dev.gl) && dev.live == old(dev.live) && dev.allocations == old(dev.allocations)
    {
      if name in cache {
        loc := cache[name];
      } else {
        loc := dev.UniformLocation(uid, name);
        cache := cache[name := loc];
        if loc < 0 {
          dev.Report(InvalidUniformName(name));
        }
      }
    }

    /**
     * `set(name, value)`, all four overloads: applies the program, then writes
     * the value at the cached location; a write to location -1 is dropped.
     */
    method Set(name: string, v: Value)
      requires dev.Valid() && Valid()
      modifies this`cache, cell, dev`trace, dev`gl, dev`log
      ensures dev.Valid() && Valid()
      ensures cell.uid == uid
      ensures cache == old(cache)[name := dev.locate(uid, name)]
      ensures dev.gl == old(dev.gl).(program := uid,
                                     uniforms := Written(old(dev.gl).uniforms, uid, dev.locate(uid, name), name, v))
      ensures dev.trace == old(dev.trace) + ApplyCmds(old(cell.uid), uid) + LookupCmds(old(cache), uid, name)
                           + [Uniform(dev.locate(uid, name), name, v)]
      ensures dev.log == old(dev.log) + LookupLog(old(cache), dev.locate(uid, name), name)
      ensures dev.live == old(dev.live) && dev.allocations == old(dev.allocations)
    {
      Apply();
      var loc := GetUniformLocation(name);
      dev.Issue(Uniform(loc, name, v));
    }

    /** `get<T>(name)`: reads the stored value without applying the program. */
    method Get(name: string) returns (v: Option<Value>)
      requires dev.Valid() && Valid()
      modifies this`cache, dev`trace, dev`log
      ensures dev.Valid() && Valid()
      ensures v == if dev.locate(uid, name) >= 0 && (uid, name) in dev.gl.uniforms
                   then Some(dev.gl.uniforms[(uid, name)]) else None
      ensures cache == old(cache)[name := dev.locate(uid, name)]
      ensures dev.trace == old(dev.trace) + LookupCmds(old(cache), uid, name)
                           + [GetUniform(uid, dev.locate(uid, name))]
      ensures dev.log == old(dev.log) + LookupLog(old(cache), dev.locate(uid, name), name)
      ensures dev.gl == old(dev.gl) && dev.live == old(dev.live) && dev.allocations == old(dev.allocations)
    {
      var loc := GetUniformLocation(name);
      v := dev.ReadUniform(uid, loc, name);
    }
  }
}
