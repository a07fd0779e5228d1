/**
 * The abstract GPU device that every wrapper of the renderer talks to.
 *
 * It stands for the OpenGL context together with the collaborators the
 * renderer cannot see into: which object names the driver hands out (and
 * which allocation requests it refuses), what the shader files contain and
 * whether they compile and link, where each uniform lives, and which image
 * files decode. Those are fixed at construction and are the inputs of the
 * model. The device keeps an append-only trace of every command issued, the
 * binding state those commands change, a uniform store keyed by
 * (program, uniform name), and a ghost map of live names recording what kind
 * of object each is and which wrapper is responsible for releasing it.
 */
module Gpu {
  import opened Common

  /** A GL object name (`GLuint`). */
  type Handle = nat

  /** `~0u`, the all-bits-set value the wrappers use for "nothing allocated". */
  const Sentinel: Handle := 0xFFFF_FFFF

  datatype Kind = TextureObj | FramebufferObj | VertexArrayObj | BufferObj | ShaderObj | ProgramObj

  /** A live name: the kind of object behind it and the wrapper that must release it. */
  datatype Lease = Lease(kind: Kind, holder: object)

  /** `GL_TEXTURE_2D`, `GL_TEXTURE_CUBE_MAP`, and `GL_TEXTURE_CUBE_MAP_POSITIVE_X + face`. */
  datatype TexTarget = Texture2D | CubeMap | CubeFace(face: nat)
  datatype TexParam = WrapS | WrapT | WrapR | MinFilter | MagFilter
  /** The parameter values the renderer passes to `glTexParameteri`. */
  datatype GlEnum = Repeat | ClampToEdge | Linear | LinearMipmapLinear | Nearest
  datatype PixelFormat = DepthComponent | Rgb
  datatype PixelType = FloatPixels | UnsignedBytePixels
  datatype Attachment = ColorAttachment(index: nat) | DepthAttachment
  datatype BufferTarget = ArrayBuffer | ElementArrayBuffer
  datatype ClearMask = DepthBit | ColorAndDepthBits
  datatype StageType = VertexShader | FragmentShader | GeometryShader

  /** One line of the diagnostic log (the renderer writes these to `std::cerr`). */
  datatype Diagnostic =
    | FileReadFailed(path: string)
    | CompileFailed(path: string)
    | LinkFailed
    | InvalidUniformName(uniform: string)
    | TextureLoadFailed(path: string)
    | InvalidBindIndex
    | ImportFailed

  /** A uniform value, tagged by the `glUniform*` variant that writes it. */
  datatype Value = IntV(i: int) | FloatV(f: real) | Vec3V(v: Vec3) | Mat4V(m: Transform)

  datatype Binding = Binding(target: TexTarget, texture: Handle)

  /** One command issued to the device, in the order the renderer issues them. */
  datatype Cmd =
    | Gen(kind: Kind, name: Handle)
    | Delete(kind: Kind, name: Handle)
    | ShaderSource(shader: Handle, text: string)
    | CompileShader(shader: Handle)
    | AttachShader(program: Handle, shader: Handle)
    | LinkProgram(program: Handle)
    | UseProgram(program: Handle)
    | GetUniformLocation(program: Handle, uniform: string)
    | Uniform(location: int, uniform: string, value: Value)
    | GetUniform(program: Handle, location: int)
    | ActiveTexture(unit: nat)
    | BindTexture(target: TexTarget, texture: Handle)
    | TexParameter(target: TexTarget, param: TexParam, setting: GlEnum)
    | TexImage(target: TexTarget, width: int, height: int, format: PixelFormat, pixels: PixelType, withData: bool)
    | GenerateMipmap
    | BindFramebuffer(framebuffer: Handle)
    | FramebufferTexture(attachment: Attachment, texture: Handle)
    | DrawBuffers(count: nat)
    | NoColorBuffer
    | BindVertexArray(vao: Handle)
    | BindBuffer(bufferTarget: BufferTarget, buffer: Handle)
    | BufferData(bufferTarget: BufferTarget, bytes: nat)
    | VertexAttrib(index: nat, components: nat, stride: nat, offset: nat)
    | DrawElements(program: Handle, vao: Handle, count: nat)
    | Viewport(width: int, height: int)
    | ClearColor
    | Clear(mask: ClearMask)
    | SwapBuffers
    | PollEvents
    | SetFramebufferSizeCallback
    | SetCursorPosCallback

  /** The binding state of the context that commands change. */
  datatype GlState = GlState(
    program: Handle,
    activeUnit: nat,
    units: map<nat, Binding>,
    framebuffer: Handle,
    vertexArray: Handle,
    buffers: map<BufferTarget, Handle>,
    viewport: (int, int),
    uniforms: map<(Handle, string), Value>,
    sources: map<Handle, string>,
    attached: map<Handle, seq<Handle>>,
    cursorCallback: bool)

  const InitialState := GlState(0, 0, map[], 0, 0, map[], (0, 0), map[], map[], map[], false)

  /** Commands that only change binding state: everything except allocation, release, queries and draws. */
  predicate Plain(c: Cmd) {
    !(c.Gen? || c.Delete? || c.CompileShader? || c.LinkProgram? || c.GetUniformLocation? ||
      c.GetUniform? || c.DrawElements?)
  }

  /** Plain commands whose effect on the tracked binding state is nil: uploads, parameters, clears, swaps. */
  predicate Inert(c: Cmd) {
    c.TexParameter? || c.TexImage? || c.GenerateMipmap? || c.FramebufferTexture? || c.DrawBuffers? ||
    c.NoColorBuffer? || c.BufferData? || c.VertexAttrib? || c.ClearColor? || c.Clear? || c.SwapBuffers? ||
    c.PollEvents? || c.SetFramebufferSizeCallback?
  }

  function Attached(g: GlState, p: Handle): seq<Handle> {
    if p in g.attached then g.attached[p] else []
  }

  /** The effect of a plain command on the binding state. A uniform write to location -1 is ignored, as GL specifies. */
  function Step(g: GlState, c: Cmd): GlState {
    match c
    case UseProgram(p) => g.(program := p)
    case Uniform(loc, name, v) => if loc >= 0 then g.(uniforms := g.uniforms[(g.program, name) := v]) else g
    case ActiveTexture(u) => g.(activeUnit := u)
    case BindTexture(t, h) => g.(units := g.units[g.activeUnit := Binding(t, h)])
    case BindFramebuffer(h) => g.(framebuffer := h)
    case BindVertexArray(h) => g.(vertexArray := h)
    case BindBuffer(t, h) => g.(buffers := g.buffers[t := h])
    case Viewport(w, h) => g.(viewport := (w, h))
    case ShaderSource(s, text) => g.(sources := g.sources[s := text])
    case AttachShader(p, s) => g.(attached := g.attached[p := Attached(g, p) + [s]])
    case SetCursorPosCallback => g.(cursorCallback := true)
    case _ => g
  }

  /** `glActiveTexture(GL_TEXTURE0 + unit)` followed by `glBindTexture(target, h)`. */
  function BindUnit(g: GlState, unit: nat, target: TexTarget, h: Handle): GlState {
    g.(activeUnit := unit, units := g.units[unit := Binding(target, h)])
  }

  /**
   * The commands that make up the render passes of a frame: viewport and
   * framebuffer switches, clears, draws, buffer swaps, event polls and the
   * window callbacks. Binds, uniform traffic and allocation are not passes.
   */
  predicate PassCmd(c: Cmd) {
    c.Viewport? || c.BindFramebuffer? || c.ClearColor? || c.Clear? || c.DrawElements? ||
    c.SwapBuffers? || c.PollEvents? || c.SetFramebufferSizeCallback? || c.SetCursorPosCallback?
  }

  /** The pass commands of a trace, in order. */
  function Passes(t: seq<Cmd>): (r: seq<Cmd>)
    ensures |r| <= |t|
  {
    if t == [] then []
    else Passes(t[..|t| - 1]) + (if PassCmd(t[|t| - 1]) then [t[|t| - 1]] else [])
  }

  /** Projecting a trace onto its passes distributes over concatenation. */
  lemma {:induction false} PassesAppend(a: seq<Cmd>, b: seq<Cmd>)
    ensures Passes(a + b) == Passes(a) + Passes(b)
    decreases |b|
  {
    if b == [] {
      assert a + b == a;
    } else {
      assert (a + b)[..|a + b| - 1] == a + b[..|b| - 1];
      PassesAppend(a, b[..|b| - 1]);
    }
  }

  /** A stretch of trace with no pass command in it projects to nothing. */
  lemma {:induction false} PassesNone(t: seq<Cmd>)
    requires forall i :: 0 <= i < |t| ==> !PassCmd(t[i])
    ensures Passes(t) == []
  {
    if t != [] {
      PassesNone(t[..|t| - 1]);
    }
  }

  /** Appending commands none of which is a pass leaves the passes of a trace as they were. */
  lemma QuietAppend(t: seq<Cmd>, extra: seq<Cmd>)
    requires forall i :: 0 <= i < |extra| ==> !PassCmd(extra[i])
    ensures Passes(t + extra) == Passes(t)
  {
    PassesAppend(t, extra);
    PassesNone(extra);
  }

  /** The source texts of the shaders attached to `p`, or `None` if one of them has no source. */
  function AttachedSources(g: GlState, p: Handle): Option<seq<string>> {
    SourcesOf(g, Attached(g, p))
  }

  function SourcesOf(g: GlState, shaders: seq<Handle>): (r: Option<seq<string>>)
    ensures r.Some? <==> forall i :: 0 <= i < |shaders| ==> shaders[i] in g.sources
    ensures r.Some? ==> |r.value| == |shaders|
    ensures r.Some? ==> forall i :: 0 <= i < |shaders| ==> r.value[i] == g.sources[shaders[i]]
  {
    if shaders == [] then Some([])
    else if shaders[0] !in g.sources then None
    else match SourcesOf(g, shaders[1..])
      case None => None
      case Some(rest) => Some([g.sources[shaders[0]]] + rest)
  }

  /** A name seen as one the allocator handed out; the identity, used only to steer the proofs about fresh names. */
  ghost function Issued(h: Handle): Handle {
    h
  }

  class Device {
    /** Every command issued so far, oldest first. */
    var trace: seq<Cmd>
    var gl: GlState
    /** Live names; only the holder of a lease may release it. */
    ghost var live: map<Handle, Lease>
    /** The diagnostic log, oldest line first. */
    var log: seq<Diagnostic>

    var nextName: Handle
    var allocations: nat
    /** The numbers of the `glGen*` requests that the driver answers with `~0`. */
    const refused: set<nat>
    /** Readable shader files: path to text. */
    const files: map<string, string>
    /** Shader texts that compile. */
    const compilable: set<string>
    /** Lists of attached shader texts that link into a program. */
    const linkable: set<seq<string>>
    /** `glGetUniformLocation`: -1 for a name the program does not have. */
    const locate: (Handle, string) -> int
    /** Image paths that decode, with the width and height they decode to. */
    const images: map<string, (int, int)>

    /**
     * Every live name was handed out before `nextName`. The quantifier fires
     * only on `Issued` terms, which the name allocator introduces itself.
     */
    ghost predicate Valid()
      reads this`nextName, this`live
    {
      0 < nextName && nextName != Sentinel &&
      forall h {:trigger Issued(h)} :: h in live ==> 0 < Issued(h) < nextName && h != Sentinel
    }

    constructor (refused: set<nat>, files: map<string, string>, compilable: set<string>,
                 linkable: set<seq<string>>, locate: (Handle, string) -> int, images: map<string, (int, int)>)
      ensures Valid()
      ensures trace == [] && gl == InitialState && live == map[] && allocations == 0 && log == []
      ensures this.refused == refused && this.files == files && this.compilable == compilable
      ensures this.linkable == linkable && this.locate == locate && this.images == images
    {
      this.refused, this.files, this.compilable := refused, files, compilable;
      this.linkable, this.locate, this.images := linkable, locate, images;
      trace, gl, live, log := [], InitialState, map[], [];
      nextName, allocations := 1, 0;
    }

    /** The sentinel is never a live name, so releasing every real name of a wrapper never touches it. */
    lemma SentinelNotLive()
      requires Valid()
      ensures Sentinel !in live
    {
      assert Issued(Sentinel) == Sentinel;
    }

    /** Hands out the next unused name, skipping the sentinel. */
    method NewName(kind: Kind, ghost holder: object) returns (h: Handle)
      requires Valid()
      modifies this`nextName, this`live
      ensures Valid()
      ensures h != 0 && h != Sentinel && h !in old(live)
      ensures live == old(live)[h := Lease(kind, holder)]
    {
      h := nextName;
      assert Issued(h) == h;
      nextName := if nextName + 1 == Sentinel then nextName + 2 else nextName + 1;
      live := live[h := Lease(kind, holder)];
    }

    /** `glGen*(1, &h)`: a fresh name, or `~0` when the driver refuses this request. */
    method Allocate(kind: Kind, ghost holder: object) returns (h: Handle)
      requires Valid()
      modifies this`nextName, this`live, this`allocations, this`trace
      ensures Valid()
      ensures h == Sentinel <==> old(allocations) in refused
      ensures h != Sentinel ==> h != 0 && h !in old(live) && live == old(live)[h := Lease(kind, holder)]
      ensures h == Sentinel ==> live == old(live)
      ensures allocations == old(allocations) + 1
      ensures trace == old(trace) + [Gen(kind, h)] && gl == old(gl) && log == old(log)
    {
      if allocations in refused {
        h := Sentinel;
      } else {
        h := NewName(kind, holder);
      }
      allocations := allocations + 1;
      trace := trace + [Gen(kind, h)];
    }

    /** `glCreateShader` / `glCreateProgram`: always a fresh name; a new program has no shaders attached. */
    method Create(kind: Kind, ghost holder: object) returns (h: Handle)
      requires Valid()
      modifies this`nextName, this`live, this`trace, this`gl
      ensures Valid()
      ensures h != 0 && h != Sentinel && h !in old(live) && live == old(live)[h := Lease(kind, holder)]
      ensures allocations == old(allocations)
      ensures trace == old(trace) + [Gen(kind, h)] && log == old(log)
      ensures gl == if kind == ProgramObj then old(gl).(attached := old(gl).attached[h := []]) else old(gl)
    {
      h := NewName(kind, holder);
      trace := trace + [Gen(kind, h)];
      if kind == ProgramObj {
        gl := gl.(attached := gl.attached[h := []]);
      }
    }

    /** `glDelete*`: only a live name, of the right kind, by the wrapper that holds it. */
    method Release(kind: Kind, h: Handle, ghost holder: object)
      requires Valid()
      requires h in live && live[h] == Lease(kind, holder)
      modifies this`live, this`trace
      ensures Valid()
      ensures live == old(live) - {h}
      ensures allocations == old(allocations)
      ensures trace == old(trace) + [Delete(kind, h)] && gl == old(gl) && log == old(log)
    {
      live := live - {h};
      trace := trace + [Delete(kind, h)];
    }

    /** Ownership moves with a C++ move: the lease on `h` passes from one wrapper to another. */
    ghost method Transfer(h: Handle, kind: Kind, from: object, to: object)
      requires Valid()
      requires h in live && live[h] == Lease(kind, from)
      modifies this`live
      ensures Valid()
      ensures live == old(live)[h := Lease(kind, to)]
    {
      live := live[h := Lease(kind, to)];
    }

    /** Appends a line to the diagnostic log. */
    method Report(d: Diagnostic)
      requires Valid()
      modifies this`log
      ensures log == old(log) + [d]
    {
      log := log + [d];
    }

    /** Issues a command that changes no binding state the model tracks. */
    method Emit(c: Cmd)
      requires Valid() && Inert(c)
      modifies this`trace
      ensures trace == old(trace) + [c]
    {
      trace := trace + [c];
    }

    /** Issues a command that only changes binding state. */
    method Issue(c: Cmd)
      requires Valid() && Plain(c)
      modifies this`trace, this`gl
      ensures Valid()
      ensures trace == old(trace) + [c] && gl == Step(old(gl), c)
      ensures live == old(live) && allocations == old(allocations) && log == old(log)
    {
      trace := trace + [c];
      gl := Step(gl, c);
    }

    /** `glCompileShader` followed by the `GL_COMPILE_STATUS` query. */
    method Compile(s: Handle) returns (ok: bool)
      requires Valid()
      modifies this`trace
      ensures Valid()
      ensures ok <==> s in gl.sources && gl.sources[s] in compilable
      ensures trace == old(trace) + [CompileShader(s)] && gl == old(gl)
      ensures live == old(live) && allocations == old(allocations) && log == old(log)
    {
      trace := trace + [CompileShader(s)];
      ok := s in gl.sources && gl.sources[s] in compilable;
    }

    /** `glLinkProgram` followed by the `GL_LINK_STATUS` query. */
    method Link(p: Handle) returns (ok: bool)
      requires Valid()
      modifies this`trace
      ensures Valid()
      ensures ok <==> AttachedSources(gl, p).Some? && AttachedSources(gl, p).value in linkable
      ensures trace == old(trace) + [LinkProgram(p)] && gl == old(gl)
      ensures live == old(live) && allocations == old(allocations) && log == old(log)
    {
      trace := trace + [LinkProgram(p)];
      var srcs := AttachedSources(gl, p);
      ok := srcs.Some? && srcs.value in linkable;
    }

    method UniformLocation(p: Handle, name: string) returns (loc: int)
      requires Valid()
      modifies this`trace
      ensures Valid()
      ensures loc == locate(p, name)
      ensures trace == old(trace) + [GetUniformLocation(p, name)] && gl == old(gl)
      ensures live == old(live) && allocations == old(allocations) && log == old(log)
    {
      trace := trace + [GetUniformLocation(p, name)];
      loc := locate(p, name);
    }

    /** `glGetUniform*v`: the stored value, or `None` when the location is -1 or nothing was written yet. */
    method ReadUniform(p: Handle, loc: int, name: string) returns (v: Option<Value>)
      requires Valid()
      modifies this`trace
      ensures Valid()
      ensures v == if loc >= 0 && (p, name) in gl.uniforms then Some(gl.uniforms[(p, name)]) else None
      ensures trace == old(trace) + [GetUniform(p, loc)] && gl == old(gl)
      ensures live == old(live) && allocations == old(allocations) && log == old(log)
    {
      trace := trace + [GetUniform(p, loc)];
      v := if loc >= 0 && (p, name) in gl.uniforms then Some(gl.uniforms[(p, name)]) else None;
    }

    /** `glDrawElements`: the trace records the program and vertex array it draws with. */
    method Draw(count: nat)
      requires Valid()
      modifies this`trace
      ensures Valid()
      ensures trace == old(trace) + [DrawElements(old(gl).program, old(gl).vertexArray, count)] && gl == old(gl)
      ensures live == old(live) && allocations == old(allocations) && log == old(log)
    {
      trace := trace + [DrawElements(gl.program, gl.vertexArray, count)];
    }
  }
}
