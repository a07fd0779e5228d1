/**
 * include/texture.h: the owning wrappers of texture and framebuffer names.
 *
 * Each wrapper holds `~0`-sentinel names; a texture also holds a `valid`
 * flag. Moves hand the name over and null the source; destructors release
 * conditionally. The device's lease map makes "a release always targets a
 * live name held by the releasing wrapper" a precondition of every release,
 * so no sequence of moves can release a name twice.
 */
module Textures {
  import opened Common
  import opened Gpu

  /** The setup a texture constructor issues once it holds a name: bind on unit 15, then the parameters. */
  function SetupCmds(target: TexTarget, h: Handle, wrap: GlEnum, minFilter: GlEnum, magFilter: GlEnum): seq<Cmd> {
    [ActiveTexture(15), BindTexture(target, h), TexParameter(target, WrapS, wrap), TexParameter(target, WrapT, wrap)]
    + (if target == CubeMap then [TexParameter(CubeMap, WrapR, wrap)] else [])
    + [TexParameter(target, MinFilter, minFilter), TexParameter(target, MagFilter, magFilter)]
  }

  /** The setup part of a texture constructor. */
  method Setup(dev: Device, target: TexTarget, h: Handle, wrap: GlEnum, minFilter: GlEnum, magFilter: GlEnum)
    requires dev.Valid()
    modifies dev`trace, dev`gl
    ensures dev.trace == old(dev.trace) + SetupCmds(target, h, wrap, minFilter, magFilter)
    ensures dev.gl == BindUnit(old(dev.gl), 15, target, h)
  {
    dev.Issue(ActiveTexture(15));
    dev.Issue(BindTexture(target, h));
    dev.Emit(TexParameter(target, WrapS, wrap));
    dev.Emit(TexParameter(target, WrapT, wrap));
    if target == CubeMap {
      dev.Emit(TexParameter(target, WrapR, wrap));
    }
    dev.Emit(TexParameter(target, MinFilter, minFilter));
    dev.Emit(TexParameter(target, MagFilter, magFilter));
  }

  /** Everything a texture constructor issues: the `glGenTextures` and, for a real name, the setup. */
  function CtorCmds(target: TexTarget, h: Handle, wrap: GlEnum, minFilter: GlEnum, magFilter: GlEnum): (r: seq<Cmd>)
    ensures |r| >= 1 && r[0] == Gen(TextureObj, h)
  {
    [Gen(TextureObj, h)] + (if h != Sentinel then SetupCmds(target, h, wrap, minFilter, magFilter) else [])
  }

  /** The commands of `bind(index)`. */
  function BindCmds(index: nat, target: TexTarget, h: Handle): seq<Cmd> {
    [ActiveTexture(index), BindTexture(target, h)]
  }

  /** The commands of `load(path, mipmap)`: bind on unit 15, then the upload and mipmaps of an image that decodes. */
  function LoadCmds(images: map<string, (int, int)>, path: string, h: Handle, mipmap: bool): seq<Cmd> {
    BindCmds(15, Texture2D, h)
    + (if path in images then [TexImage(Texture2D, images[path].0, images[path].1, Rgb, UnsignedBytePixels, true)]
                              + (if mipmap then [GenerateMipmap] else [])
       else [])
  }

  /** `bind` logs an out-of-range unit but binds it all the same. */
  function BindLog(index: nat): seq<Diagnostic> {
    if index >= 15 then [InvalidBindIndex] else []
  }

  /** The `glDeleteTextures` a texture destructor issues. */
  function DestroyCmds(valid: bool, h: Handle): seq<Cmd> {
    if valid then [Delete(TextureObj, h)] else []
  }

  /** The binding state and uniform store are the same, apart from texture units and framebuffer. */
  ghost predicate ProgramsKept(g0: GlState, g1: GlState) {
    g1.program == g0.program && g1.uniforms == g0.uniforms && g1.sources == g0.sources &&
    g1.attached == g0.attached && g1.vertexArray == g0.vertexArray && g1.viewport == g0.viewport
  }

  /** `Texture`: a 2-D texture name, valid iff `glGenTextures` produced one. */
  class Texture {
    const dev: Device
    var uid: Handle
    var valid: bool

    /** A valid texture holds the lease on its name. */
    ghost predicate Valid()
      reads this, dev`live
    {
      valid ==> uid in dev.live && dev.live[uid] == Lease(TextureObj, this)
    }

    /** `Texture(wrap, min, mag)`: valid iff the name is not the sentinel; only then is it set up. */
    constructor (dev: Device, wrap: GlEnum, minFilter: GlEnum := LinearMipmapLinear, magFilter: GlEnum := Linear)
      requires dev.Valid()
      modifies dev`nextName, dev`live, dev`allocations, dev`trace, dev`gl
      ensures this.dev == dev && dev.Valid() && Valid()
      ensures valid <==> uid != Sentinel
      ensures valid <==> old(dev.allocations) !in dev.refused
      ensures valid ==> uid !in old(dev.live) && dev.live == old(dev.live)[uid := Lease(TextureObj, this)]
      ensures !valid ==> dev.live == old(dev.live)
      ensures dev.trace == old(dev.trace) + CtorCmds(Texture2D, uid, wrap, minFilter, magFilter)
      ensures dev.gl == if valid then BindUnit(old(dev.gl), 15, Texture2D, uid) else old(dev.gl)
      ensures dev.log == old(dev.log) && dev.allocations == old(dev.allocations) + 1
    {
      this.dev := dev;
      var h := dev.Allocate(TextureObj, dev);
      if h != Sentinel {
        Setup(dev, Texture2D, h, wrap, minFilter, magFilter);
      }
      uid, valid := h, h != Sentinel;
      new;
      if valid {
        dev.Transfer(uid, TextureObj, dev, this);
      }
    }

    /** `Texture()`: `(~0, invalid)`, touching nothing. */
    constructor Empty(dev: Device)
      ensures this.dev == dev && uid == Sentinel && !valid && Valid()
    {
      this.dev, uid, valid := dev, Sentinel, false;
    }

    /** `Texture(Texture&&)`: copies the name and flag, then marks the source invalid (it keeps its stale name). */
    constructor Moved(rhs: Texture)
      requires rhs.dev.Valid() && rhs.Valid()
      modifies rhs`valid, rhs.dev`live
      ensures dev == rhs.dev && dev.Valid() && Valid() && rhs.Valid()
      ensures uid == old(rhs.uid) && valid == old(rhs.valid)
      ensures !rhs.valid && rhs.uid == old(rhs.uid)
      ensures dev.live == if valid then old(rhs.dev.live)[uid := Lease(TextureObj, this)] else old(rhs.dev.live)
    {
      dev, uid, valid := rhs.dev, rhs.uid, rhs.valid;
      new;
      if valid {
        dev.Transfer(uid, TextureObj, rhs, this);
      }
      rhs.valid := false;
    }

    /**
     * `operator=(Texture&&)` as written: takes over the source's name and flag
     * and resets the source to `(~0, invalid)`, but never deletes the name a
     * valid destination held. That name stays live, leased to this wrapper,
     * which no longer refers to it: no later destructor can release it.
     */
    method MoveAssign(rhs: Texture)
      requires rhs != this && rhs.dev == dev && dev.Valid() && Valid() && rhs.Valid()
      modifies this, rhs, dev`live
      ensures dev.Valid() && Valid() && rhs.Valid()
      ensures uid == old(rhs.uid) && valid == old(rhs.valid)
      ensures rhs.uid == Sentinel && !rhs.valid
      ensures dev.live == if valid then old(dev.live)[uid := Lease(TextureObj, this)] else old(dev.live)
      ensures old(valid) ==> old(uid) in dev.live && dev.live[old(uid)] == Lease(TextureObj, this)
                             && !(valid && uid == old(uid))
    {
      uid, valid := rhs.uid, rhs.valid;
      rhs.uid, rhs.valid := Sentinel, false;
      if valid {
        dev.Transfer(uid, TextureObj, rhs, this);
      }
    }

    /**
     * Move assignment that first deletes the destination's own name, as the
     * destructor would: afterwards the old name is no longer live and is
     * deleted exactly once.
     */
    method MoveAssignReleasing(rhs: Texture)
      requires rhs != this && rhs.dev == dev && dev.Valid() && Valid() && rhs.Valid()
      modifies this, rhs, dev`live, dev`trace
      ensures dev.Valid() && Valid() && rhs.Valid()
      ensures uid == old(rhs.uid) && valid == old(rhs.valid)
      ensures rhs.uid == Sentinel && !rhs.valid
      ensures old(valid) ==> old(uid) !in dev.live
      ensures dev.live == (if valid then (old(dev.live) - (if old(valid) then {old(uid)} else {}))[uid := Lease(TextureObj, this)]
                           else old(dev.live) - (if old(valid) then {old(uid)} else {}))
      ensures dev.trace == old(dev.trace) + DestroyCmds(old(valid), old(uid))
    {
      if valid {
        dev.Release(TextureObj, uid, this);
      }
      uid, valid := rhs.uid, rhs.valid;
      rhs.uid, rhs.valid := Sentinel, false;
      if valid {
        dev.Transfer(uid, TextureObj, rhs, this);
      }
    }

    /** `~Texture()`: deletes the name iff valid. */
    method Destroy()
      requires dev.Valid() && Valid()
      modifies dev`live, dev`trace
      ensures dev.Valid()
      ensures dev.live == if valid then old(dev.live) - {uid} else old(dev.live)
      ensures dev.trace == old(dev.trace) + DestroyCmds(valid, uid)
    {
      if valid {
        dev.Release(TextureObj, uid, this);
      }
    }

    /**
     * `load(path, mipmap)`: binds the texture on unit 15 and uploads the
     * decoded image; true iff the image decoded. It changes neither the name
     * nor the flag.
     */
    method Load(path: string, mipmap: bool := true) returns (ok: bool)
      requires dev.Valid()
      modifies dev`trace, dev`gl, dev`log
      ensures dev.Valid()
      ensures ok <==> path in dev.images
      ensures dev.trace == old(dev.trace) + LoadCmds(dev.images, path, uid, mipmap)
      ensures dev.gl == BindUnit(old(dev.gl), 15, Texture2D, uid)
      ensures dev.log == old(dev.log) + (if ok then [] else [TextureLoadFailed(path)])
    {
      dev.Issue(ActiveTexture(15));
      dev.Issue(BindTexture(Texture2D, uid));
      if path in dev.images {
        var size := dev.images[path];
        dev.Emit(TexImage(Texture2D, size.0, size.1, Rgb, UnsignedBytePixels, true));
        if mipmap {
          dev.Emit(GenerateMipmap);
        }
        ok := true;
      } else {
        dev.Report(TextureLoadFailed(path));
        ok := false;
      }
    }

    /** `bind(index)`: unit `index` holds this texture afterwards, even when `index >= 15` is logged. */
    method Bind(index: nat)
      requires dev.Valid()
      modifies dev`trace, dev`gl, dev`log
      ensures dev.Valid()
      ensures dev.gl == BindUnit(old(dev.gl), index, Texture2D, uid)
      ensures dev.gl.units[index] == Binding(Texture2D, uid)
      ensures dev.trace == old(dev.trace) + BindCmds(index, Texture2D, uid)
      ensures dev.log == old(dev.log) + BindLog(index)
    {
      if index >= 15 {
        dev.Report(InvalidBindIndex);
      }
      dev.Issue(ActiveTexture(index));
      dev.Issue(BindTexture(Texture2D, uid));
    }
  }

  /** `CubeTexture`: the cube-map counterpart of `Texture`, with the same ownership rules. */
  class CubeTexture {
    const dev: Device
    var uid: Handle
    var valid: bool

    ghost predicate Valid()
      reads this, dev`live
    {
      valid ==> uid in dev.live && dev.live[uid] == Lease(TextureObj, this)
    }

    /** `CubeTexture(wrap, min, mag)`: as `Texture`, and the wrap mode also applies to R. */
    constructor (dev: Device, wrap: GlEnum, minFilter: GlEnum := LinearMipmapLinear, magFilter: GlEnum := Linear)
      requires dev.Valid()
      modifies dev`nextName, dev`live, dev`allocations, dev`trace, dev`gl
      ensures this.dev == dev && dev.Valid() && Valid()
      ensures valid <==> uid != Sentinel
      ensures valid <==> old(dev.allocations) !in dev.refused
      ensures valid ==> uid !in old(dev.live) && dev.live == old(dev.live)[uid := Lease(TextureObj, this)]
      ensures !valid ==> dev.live == old(dev.live)
      ensures dev.trace == old(dev.trace) + CtorCmds(CubeMap, uid, wrap, minFilter, magFilter)
      ensures dev.gl == if valid then BindUnit(old(dev.gl), 15, CubeMap, uid) else old(dev.gl)
      ensures dev.log == old(dev.log) && dev.allocations == old(dev.allocations) + 1
    {
      this.dev := dev;
      var h := dev.Allocate(TextureObj, dev);
      if h != Sentinel {
        Setup(dev, CubeMap, h, wrap, minFilter, magFilter);
      }
      uid, valid := h, h != Sentinel;
      new;
      if valid {
        dev.Transfer(uid, TextureObj, dev, this);
      }
    }

    /** `CubeTexture()`: `(~0, invalid)`. */
    constructor Empty(dev: Device)
      ensures this.dev == dev && uid == Sentinel && !valid && Valid()
    {
      this.dev, uid, valid := dev, Sentinel, false;
    }

    /** `CubeTexture(CubeTexture&&)`. */
    constructor Moved(rhs: CubeTexture)
      requires rhs.dev.Valid() && rhs.Valid()
      modifies rhs`valid, rhs.dev`live
      ensures dev == rhs.dev && dev.Valid() && Valid() && rhs.Valid()
      ensures uid == old(rhs.uid) && valid == old(rhs.valid)
      ensures !rhs.valid && rhs.uid == old(rhs.uid)
      ensures dev.live == if valid then old(rhs.dev.live)[uid := Lease(TextureObj, this)] else old(rhs.dev.live)
    {
      dev, uid, valid := rhs.dev, rhs.uid, rhs.valid;
      new;
      if valid {
        dev.Transfer(uid, TextureObj, rhs, this);
      }
      rhs.valid := false;
    }

    /** `operator=(CubeTexture&&)` as written: the same leak of a valid destination's name as `Texture`. */
    method MoveAssign(rhs: CubeTexture)
      requires rhs != this && rhs.dev == dev && dev.Valid() && Valid() && rhs.Valid()
      modifies this, rhs, dev`live
      ensures dev.Valid() && Valid() && rhs.Valid()
      ensures uid == old(rhs.uid) && valid == old(rhs.valid)
      ensures rhs.uid == Sentinel && !rhs.valid
      ensures dev.live == if valid then old(dev.live)[uid := Lease(TextureObj, this)] else old(dev.live)
      ensures old(valid) ==> old(uid) in dev.live && dev.live[old(uid)] == Lease(TextureObj, this)
                             && !(valid && uid == old(uid))
    {
      uid, valid := rhs.uid, rhs.valid;
      rhs.uid, rhs.valid := Sentinel, false;
      if valid {
        dev.Transfer(uid, TextureObj, rhs, this);
      }
    }

    /** Move assignment that first deletes the destination's own name. */
    method MoveAssignReleasing(rhs: CubeTexture)
      requires rhs != this && rhs.dev == dev && dev.Valid() && Valid() && rhs.Valid()
      modifies this, rhs, dev`live, dev`trace
      ensures dev.Valid() && Valid() && rhs.Valid()
      ensures uid == old(rhs.uid) && valid == old(rhs.valid)
      ensures rhs.uid == Sentinel && !rhs.valid
      ensures old(valid) ==> old(uid) !in dev.live
      ensures dev.live == (if valid then (old(dev.live) - (if old(valid) then {old(uid)} else {}))[uid := Lease(TextureObj, this)]
                           else old(dev.live) - (if old(valid) then {old(uid)} else {}))
      ensures dev.trace == old(dev.trace) + DestroyCmds(old(valid), old(uid))
    {
      if valid {
        dev.Release(TextureObj, uid, this);
      }
      uid, valid := rhs.uid, rhs.valid;
      rhs.uid, rhs.valid := Sentinel, false;
      if valid {
        dev.Transfer(uid, TextureObj, rhs, this);
      }
    }

    /** `~CubeTexture()`. */
    method Destroy()
      requires dev.Valid() && Valid()
      modifies dev`live, dev`trace
      ensures dev.Valid()
      ensures dev.live == old(dev.live) - Named(valid, uid)
      ensures dev.trace == old(dev.trace) + DestroyCmds(valid, uid)
    {
      if valid {
        dev.Release(TextureObj, uid, this);
      }
    }

    /** `bind(index)`. */
    method Bind(index: nat)
      requires dev.Valid()
      modifies dev`trace, dev`gl, dev`log
      ensures dev.Valid()
      ensures dev.gl == BindUnit(old(dev.gl), index, CubeMap, uid)
      ensures dev.gl.units[index] == Binding(CubeMap, uid)
      ensures dev.trace == old(dev.trace) + BindCmds(index, CubeMap, uid)
      ensures dev.log == old(dev.log) + BindLog(index)
    {
      if index >= 15 {
        dev.Report(InvalidBindIndex);
      }
      dev.Issue(ActiveTexture(index));
      dev.Issue(BindTexture(CubeMap, uid));
    }
  }

  /**
   * The six `glTexImage2D` calls for the faces of the bound cube map, face `i`
   * being `GL_TEXTURE_CUBE_MAP_POSITIVE_X + i`, with no pixel data.
   */
  function FaceImages(width: int, height: int, format: PixelFormat, pixels: PixelType): (r: seq<Cmd>)
    ensures |r| == 6
    ensures forall i :: 0 <= i < 6 ==> r[i] == TexImage(CubeFace(i), width, height, format, pixels, false)
  {
    seq(6, i requires 0 <= i < 6 => TexImage(CubeFace(i), width, height, format, pixels, false))
  }

  /** The face loop of the framebuffer constructors. */
  method AllocateFaces(dev: Device, width: int, height: int, format: PixelFormat, pixels: PixelType)
    requires dev.Valid()
    modifies dev`trace
    ensures dev.trace == old(dev.trace) + FaceImages(width, height, format, pixels)
  {
    for i := 0 to 6
      invariant dev.trace == old(dev.trace) + FaceImages(width, height, format, pixels)[..i]
    {
      dev.Emit(TexImage(CubeFace(i), width, height, format, pixels, false));
      assert FaceImages(width, height, format, pixels)[..i + 1]
          == FaceImages(width, height, format, pixels)[..i] + [TexImage(CubeFace(i), width, height, format, pixels, false)];
    }
    assert FaceImages(width, height, format, pixels)[..6] == FaceImages(width, height, format, pixels);
  }

  /** A framebuffer name is either the sentinel or live under its holder's lease. */
  ghost predicate Holds(dev: Device, fbo: Handle, holder: object)
    reads dev`live
  {
    fbo != Sentinel ==> fbo in dev.live && dev.live[fbo] == Lease(FramebufferObj, holder)
  }

  /** Every lease of `before` is still there, unchanged, in `after`. */
  ghost predicate LeasesKept(before: map<Handle, Lease>, after: map<Handle, Lease>) {
    forall h :: h in before ==> h in after && after[h] == before[h]
  }

  /** The `glDeleteFramebuffers` a framebuffer destructor or assignment issues. */
  function ReleaseFbo(fbo: Handle): seq<Cmd> {
    if fbo != Sentinel then [Delete(FramebufferObj, fbo)] else []
  }

  /**
   * The attachment step of `FrameBuffer(width, height, depth, type)`: the
   * cube map goes on the depth attachment when there is no `depth` buffer
   * (and no colour is drawn), on colour attachment 0 otherwise, with
   * `depth`'s texture on the depth attachment.
   */
  function ShadowAttachCmds(fbo: Handle, tex: Handle, depthTex: Option<Handle>): seq<Cmd> {
    [BindFramebuffer(fbo), FramebufferTexture(if depthTex.None? then DepthAttachment else ColorAttachment(0), tex)]
    + (match depthTex
       case None => [NoColorBuffer]
       case Some(d) => [FramebufferTexture(DepthAttachment, d)])
    + [BindFramebuffer(0)]
  }

  method AttachShadow(dev: Device, fbo: Handle, tex: Handle, depthTex: Option<Handle>)
    requires dev.Valid()
    modifies dev`trace, dev`gl
    ensures dev.trace == old(dev.trace) + ShadowAttachCmds(fbo, tex, depthTex)
    ensures dev.gl == old(dev.gl).(framebuffer := 0)
  {
    dev.Issue(BindFramebuffer(fbo));
    dev.Emit(FramebufferTexture(if depthTex.None? then DepthAttachment else ColorAttachment(0), tex));
    if depthTex.None? {
      dev.Emit(NoColorBuffer);
    } else {
      dev.Emit(FramebufferTexture(DepthAttachment, depthTex.value));
    }
    dev.Issue(BindFramebuffer(0));
  }

  /** `FrameBuffer`: one cube-map attachment `tex` and the framebuffer name `FBO`. */
  class FrameBuffer {
    const dev: Device
    const tex: CubeTexture
    var fbo: Handle

    ghost predicate Valid()
      reads this, dev`live, tex
    {
      tex.dev == dev && tex.Valid() && Holds(dev, fbo, this)
    }

    /** `FrameBuffer()`: an empty texture and the sentinel name. */
    constructor Empty(dev: Device)
      ensures this.dev == dev && fbo == Sentinel && fresh(tex) && !tex.valid && tex.uid == Sentinel && Valid()
    {
      this.dev := dev;
      tex := new CubeTexture.Empty(dev);
      fbo := Sentinel;
    }

    /**
     * `FrameBuffer(width, height, depth, type)`: a cube map with six blank
     * faces, depth-format when `depth` is null and colour otherwise, then a
     * new framebuffer with the attachments of `ShadowAttachCmds`; the default
     * framebuffer is bound again at the end.
     */
    constructor (dev: Device, width: int, height: int, depth: FrameBuffer?, pixels: PixelType)
      requires dev.Valid()
      modifies dev`nextName, dev`live, dev`allocations, dev`trace, dev`gl, dev`log
      ensures this.dev == dev && dev.Valid() && Valid() && fresh(tex)
      ensures tex.valid <==> old(dev.allocations) !in dev.refused
      ensures fbo == Sentinel <==> old(dev.allocations) + 1 in dev.refused
      ensures dev.trace == old(dev.trace) + CtorCmds(CubeMap, tex.uid, ClampToEdge, Nearest, Nearest)
                           + FaceImages(width, height, if depth == null then DepthComponent else Rgb, pixels)
                           + [Gen(FramebufferObj, fbo)]
                           + ShadowAttachCmds(fbo, tex.uid, if depth == null then None else Some(depth.tex.uid))
      ensures dev.gl == (if tex.valid then BindUnit(old(dev.gl), 15, CubeMap, tex.uid) else old(dev.gl)).(framebuffer := 0)
      ensures dev.log == old(dev.log) && dev.allocations == old(dev.allocations) + 2
      ensures LeasesKept(old(dev.live), dev.live)
    {
      this.dev := dev;
      var t := new CubeTexture(dev, ClampToEdge, Nearest, Nearest);
      AllocateFaces(dev, width, height, if depth == null then DepthComponent else Rgb, pixels);
      var h := dev.Allocate(FramebufferObj, dev);
      AttachShadow(dev, h, t.uid, if depth == null then None else Some(depth.tex.uid));
      tex, fbo := t, h;
      new;
      if fbo != Sentinel {
        dev.Transfer(fbo, FramebufferObj, dev, this);
      }
    }

    /** `FrameBuffer(FrameBuffer&&)`: moves the texture and the name; the source's name becomes `~0`. */
    constructor Moved(rhs: FrameBuffer)
      requires rhs.dev.Valid() && rhs.Valid()
      modifies rhs`fbo, rhs.tex`valid, rhs.dev`live
      ensures dev == rhs.dev && dev.Valid() && Valid() && rhs.Valid() && fresh(tex)
      ensures fbo == old(rhs.fbo) && rhs.fbo == Sentinel
      ensures tex.uid == old(rhs.tex.uid) && tex.valid == old(rhs.tex.valid) && !rhs.tex.valid
    {
      dev := rhs.dev;
      tex := new CubeTexture.Moved(rhs.tex);
      fbo := rhs.fbo;
      new;
      if fbo != Sentinel {
        dev.Transfer(fbo, FramebufferObj, rhs, this);
      }
      rhs.fbo := Sentinel;
    }

    /**
     * `operator=(FrameBuffer&&)`: deletes its own framebuffer name if it has
     * one, then takes over the source's texture and name. The texture is
     * moved with the releasing assignment (see `CubeTexture.MoveAssignReleasing`).
     */
    method MoveAssign(rhs: FrameBuffer)
      requires rhs != this && rhs.tex != tex && rhs.dev == dev && dev.Valid() && Valid() && rhs.Valid()
      modifies this`fbo, rhs`fbo, tex, rhs.tex, dev`live, dev`trace
      ensures dev.Valid() && Valid() && rhs.Valid()
      ensures fbo == old(rhs.fbo) && rhs.fbo == Sentinel
      ensures tex.uid == old(rhs.tex.uid) && tex.valid == old(rhs.tex.valid)
      ensures rhs.tex.uid == Sentinel && !rhs.tex.valid
      ensures old(fbo) != Sentinel ==> old(fbo) !in dev.live
      ensures old(tex.valid) ==> old(tex.uid) !in dev.live
      ensures dev.trace == old(dev.trace) + ReleaseFbo(old(fbo)) + DestroyCmds(old(tex.valid), old(tex.uid))
    {
      if fbo != Sentinel {
        dev.Release(FramebufferObj, fbo, this);
      }
      tex.MoveAssignReleasing(rhs.tex);
      fbo := rhs.fbo;
      if fbo != Sentinel {
        dev.Transfer(fbo, FramebufferObj, rhs, this);
      }
      rhs.fbo := Sentinel;
    }

    /** `~FrameBuffer()`: deletes the name iff it is not `~0`, then the texture member is destroyed. */
    method Destroy()
      requires dev.Valid() && Valid()
      modifies dev`live, dev`trace
      ensures dev.Valid()
      ensures dev.trace == old(dev.trace) + ReleaseFbo(fbo) + DestroyCmds(tex.valid, tex.uid)
      ensures dev.live == old(dev.live) - (if fbo != Sentinel then {fbo} else {}) - (if tex.valid then {tex.uid} else {})
    {
      if fbo != Sentinel {
        dev.Release(FramebufferObj, fbo, this);
      }
      tex.Destroy();
    }

    /** `use(id)`: binds the framebuffer, then the texture on unit `id`. */
    method Use(id: nat)
      requires dev.Valid() && tex.dev == dev
      modifies dev`trace, dev`gl, dev`log
      ensures dev.gl == BindUnit(old(dev.gl).(framebuffer := fbo), id, CubeMap, tex.uid)
      ensures dev.trace == old(dev.trace) + [BindFramebuffer(fbo)] + BindCmds(id, CubeMap, tex.uid)
      ensures dev.log == old(dev.log) + BindLog(id)
    {
      dev.Issue(BindFramebuffer(fbo));
      tex.Bind(id);
    }
  }

  /** Binding a cube map on unit 0 and giving it six blank faces, one step of the `FullFrameBuffer` constructor. */
  function PrepareCmds(tex: Handle, width: int, height: int, format: PixelFormat, pixels: PixelType): seq<Cmd> {
    BindCmds(0, CubeMap, tex) + FaceImages(width, height, format, pixels)
  }

  method Prepare(t: CubeTexture, width: int, height: int, format: PixelFormat, pixels: PixelType)
    requires t.dev.Valid()
    modifies t.dev`trace, t.dev`gl, t.dev`log
    ensures t.dev.trace == old(t.dev.trace) + PrepareCmds(t.uid, width, height, format, pixels)
    ensures t.dev.gl == BindUnit(old(t.dev.gl), 0, CubeMap, t.uid)
    ensures t.dev.log == old(t.dev.log)
  {
    t.Bind(0);
    AllocateFaces(t.dev, width, height, format, pixels);
  }

  /** The attachment layout of the reflective shadow map: position, normal, colour on colour attachments 0, 1, 2, depth on the depth attachment. */
  function GBufferAttachCmds(fbo: Handle, pos: Handle, normal: Handle, color: Handle, depth: Handle): seq<Cmd> {
    [BindFramebuffer(fbo),
     FramebufferTexture(ColorAttachment(0), pos),
     FramebufferTexture(ColorAttachment(1), normal),
     FramebufferTexture(ColorAttachment(2), color),
     FramebufferTexture(DepthAttachment, depth),
     DrawBuffers(3), BindFramebuffer(0)]
  }

  method AttachGBuffer(dev: Device, fbo: Handle, pos: Handle, normal: Handle, color: Handle, depth: Handle)
    requires dev.Valid()
    modifies dev`trace, dev`gl
    ensures dev.trace == old(dev.trace) + GBufferAttachCmds(fbo, pos, normal, color, depth)
    ensures dev.gl == old(dev.gl).(framebuffer := 0)
  {
    dev.Issue(BindFramebuffer(fbo));
    dev.Emit(FramebufferTexture(ColorAttachment(0), pos));
    dev.Emit(FramebufferTexture(ColorAttachment(1), normal));
    dev.Emit(FramebufferTexture(ColorAttachment(2), color));
    dev.Emit(FramebufferTexture(DepthAttachment, depth));
    dev.Emit(DrawBuffers(3));
    dev.Issue(BindFramebuffer(0));
  }

  /** Every cube map of `keep` belongs to `dev` and holds the lease on its name. */
  ghost predicate AllValid(dev: Device, keep: set<CubeTexture>)
    reads dev`live, keep
  {
    forall k | k in keep :: k.dev == dev && k.Valid()
  }

  /** The name a texture wrapper holds: its own when valid, none otherwise. */
  function Named(valid: bool, uid: Handle): (r: set<Handle>)
    ensures uid in r <==> valid
    ensures forall h :: h in r ==> h == uid
  {
    if valid then {uid} else {}
  }

  /** Every lease on a name that is not a texture is unchanged. */
  ghost predicate NonTexturesKept(before: map<Handle, Lease>, after: map<Handle, Lease>) {
    forall h :: h in before && before[h].kind != TextureObj ==> h in after && after[h] == before[h]
  }

  /** A new cube map for a framebuffer member; the other members in `keep` keep their leases. */
  method NewCube(dev: Device, ghost keep: set<CubeTexture>) returns (t: CubeTexture)
    requires dev.Valid() && AllValid(dev, keep)
    modifies dev`nextName, dev`live, dev`allocations, dev`trace, dev`gl, dev`log
    ensures fresh(t) && t.dev == dev && dev.Valid() && t.Valid() && AllValid(dev, keep)
    ensures dev.trace == old(dev.trace) + CtorCmds(CubeMap, t.uid, ClampToEdge, Nearest, Nearest)
    ensures dev.gl == if t.valid then BindUnit(old(dev.gl), 15, CubeMap, t.uid) else old(dev.gl)
    ensures dev.log == old(dev.log) && dev.allocations == old(dev.allocations) + 1
    ensures LeasesKept(old(dev.live), dev.live)
  {
    t := new CubeTexture(dev, ClampToEdge, Nearest, Nearest);
  }

  /** A cube map moved out of `src`; the cube maps in `keep` keep their leases. */
  method MoveOutCube(src: CubeTexture, ghost keep: set<CubeTexture>) returns (t: CubeTexture)
    requires src.dev.Valid() && src.Valid() && src !in keep && AllValid(src.dev, keep)
    modifies src`valid, src.dev`live
    ensures fresh(t) && t.dev == src.dev && src.dev.Valid() && t.Valid() && src.Valid() && AllValid(src.dev, keep)
    ensures t.uid == old(src.uid) && t.valid == old(src.valid) && !src.valid
    ensures NonTexturesKept(old(src.dev.live), src.dev.live)
  {
    t := new CubeTexture.Moved(src);
  }

  /** The releasing move assignment of one cube map among the cube maps `all`, which keep their leases. */
  method MoveCube(dst: CubeTexture, src: CubeTexture, ghost all: set<CubeTexture>)
    requires dst != src && dst in all && src in all && src.dev == dst.dev
    requires dst.dev.Valid() && AllValid(dst.dev, all)
    modifies dst, src, dst.dev`live, dst.dev`trace
    ensures dst.dev.Valid() && AllValid(dst.dev, all)
    ensures dst.uid == old(src.uid) && dst.valid == old(src.valid) && src.uid == Sentinel && !src.valid
    ensures old(dst.valid) ==> old(dst.uid) !in dst.dev.live
    ensures NonTexturesKept(old(dst.dev.live), dst.dev.live) && dst.dev.live.Keys <= old(dst.dev.live).Keys
    ensures dst.dev.live.Keys == old(dst.dev.live).Keys - Named(old(dst.valid), old(dst.uid))
    ensures dst.dev.trace == old(dst.dev.trace) + DestroyCmds(old(dst.valid), old(dst.uid))
  {
    dst.MoveAssignReleasing(src);
  }

  /** The four cube maps of a `FullFrameBuffer`, created in declaration order: normal, depth, colour, position. */
  method NewCubes(dev: Device) returns (n: CubeTexture, d: CubeTexture, c: CubeTexture, p: CubeTexture)
    requires dev.Valid()
    modifies dev`nextName, dev`live, dev`allocations, dev`trace, dev`gl, dev`log
    ensures fresh(n) && fresh(d) && fresh(c) && fresh(p)
    ensures n != d && n != c && n != p && d != c && d != p && c != p
    ensures n.dev == dev && d.dev == dev && c.dev == dev && p.dev == dev
    ensures dev.Valid() && n.Valid() && d.Valid() && c.Valid() && p.Valid()
    ensures dev.trace == old(dev.trace) + CtorCmds(CubeMap, n.uid, ClampToEdge, Nearest, Nearest)
                         + CtorCmds(CubeMap, d.uid, ClampToEdge, Nearest, Nearest)
                         + CtorCmds(CubeMap, c.uid, ClampToEdge, Nearest, Nearest)
                         + CtorCmds(CubeMap, p.uid, ClampToEdge, Nearest, Nearest)
    ensures ProgramsKept(old(dev.gl), dev.gl) && dev.gl.framebuffer == old(dev.gl.framebuffer)
    ensures dev.log == old(dev.log) && dev.allocations == old(dev.allocations) + 4
    ensures LeasesKept(old(dev.live), dev.live)
  {
    ghost var t0 := dev.trace;
    n := NewCube(dev, {});
    d := NewCube(dev, {n});
    ghost var t2 := t0 + CtorCmds(CubeMap, n.uid, ClampToEdge, Nearest, Nearest)
                       + CtorCmds(CubeMap, d.uid, ClampToEdge, Nearest, Nearest);
    assert dev.trace == t2;
    c := NewCube(dev, {n, d});
    p := NewCube(dev, {n, d, c});
    assert n in {n, d, c} && d in {n, d, c} && c in {n, d, c};
  }

  /** Binding each cube map on unit 0 and giving it its six blank faces: depth, normal, position, colour. */
  method PrepareCubes(n: CubeTexture, d: CubeTexture, c: CubeTexture, p: CubeTexture, width: int, height: int)
    requires n.dev == d.dev == c.dev == p.dev && n.dev.Valid()
    modifies n.dev`trace, n.dev`gl, n.dev`log
    ensures n.dev.trace == old(n.dev.trace) + PrepareCmds(d.uid, width, height, DepthComponent, FloatPixels)
                           + PrepareCmds(n.uid, width, height, Rgb, FloatPixels)
                           + PrepareCmds(p.uid, width, height, Rgb, FloatPixels)
                           + PrepareCmds(c.uid, width, height, Rgb, UnsignedBytePixels)
    ensures n.dev.gl == BindUnit(old(n.dev.gl), 0, CubeMap, c.uid)
    ensures n.dev.log == old(n.dev.log)
  {
    ghost var t0 := n.dev.trace;
    Prepare(d, width, height, DepthComponent, FloatPixels);
    Prepare(n, width, height, Rgb, FloatPixels);
    ghost var t2 := t0 + PrepareCmds(d.uid, width, height, DepthComponent, FloatPixels)
                       + PrepareCmds(n.uid, width, height, Rgb, FloatPixels);
    assert n.dev.trace == t2;
    Prepare(p, width, height, Rgb, FloatPixels);
    Prepare(c, width, height, Rgb, UnsignedBytePixels);
  }

  /** The four cube maps of a `FullFrameBuffer`, constructed in declaration order and given their blank faces. */
  method MakeCubes(dev: Device, width: int, height: int) returns (n: CubeTexture, d: CubeTexture, c: CubeTexture, p: CubeTexture)
    requires dev.Valid()
    modifies dev`nextName, dev`live, dev`allocations, dev`trace, dev`gl, dev`log
    ensures fresh(n) && fresh(d) && fresh(c) && fresh(p)
    ensures n != d && n != c && n != p && d != c && d != p && c != p
    ensures n.dev == dev && d.dev == dev && c.dev == dev && p.dev == dev
    ensures dev.Valid() && n.Valid() && d.Valid() && c.Valid() && p.Valid()
    ensures dev.trace == old(dev.trace)
                         + CtorCmds(CubeMap, n.uid, ClampToEdge, Nearest, Nearest)
                         + CtorCmds(CubeMap, d.uid, ClampToEdge, Nearest, Nearest)
                         + CtorCmds(CubeMap, c.uid, ClampToEdge, Nearest, Nearest)
                         + CtorCmds(CubeMap, p.uid, ClampToEdge, Nearest, Nearest)
                         + PrepareCmds(d.uid, width, height, DepthComponent, FloatPixels)
                         + PrepareCmds(n.uid, width, height, Rgb, FloatPixels)
                         + PrepareCmds(p.uid, width, height, Rgb, FloatPixels)
                         + PrepareCmds(c.uid, width, height, Rgb, UnsignedBytePixels)
    ensures dev.gl.framebuffer == old(dev.gl.framebuffer) && dev.gl.activeUnit == 0
    ensures 0 in dev.gl.units && dev.gl.units[0] == Binding(CubeMap, c.uid)
    ensures ProgramsKept(old(dev.gl), dev.gl)
    ensures dev.log == old(dev.log) && dev.allocations == old(dev.allocations) + 4
    ensures LeasesKept(old(dev.live), dev.live)
  {
    n, d, c, p := NewCubes(dev);
    PrepareCubes(n, d, c, p, width, height);
  }

  /**
   * The trace `t` extended by a `FullFrameBuffer` constructor: the four cube
   * maps in declaration order, their blank faces (depth as float depth,
   * normal and position as float RGB, colour as byte RGB), then the
   * framebuffer name and its attachments.
   */
  function GBufferTrace(t: seq<Cmd>, n: Handle, d: Handle, c: Handle, p: Handle, fbo: Handle, width: int, height: int): seq<Cmd> {
    t
    + CtorCmds(CubeMap, n, ClampToEdge, Nearest, Nearest)
    + CtorCmds(CubeMap, d, ClampToEdge, Nearest, Nearest)
    + CtorCmds(CubeMap, c, ClampToEdge, Nearest, Nearest)
    + CtorCmds(CubeMap, p, ClampToEdge, Nearest, Nearest)
    + PrepareCmds(d, width, height, DepthComponent, FloatPixels)
    + PrepareCmds(n, width, height, Rgb, FloatPixels)
    + PrepareCmds(p, width, height, Rgb, FloatPixels)
    + PrepareCmds(c, width, height, Rgb, UnsignedBytePixels)
    + [Gen(FramebufferObj, fbo)]
    + GBufferAttachCmds(fbo, p, n, c, d)
  }

  /** `glGenFramebuffers` and the attachment of the four cube maps; the textures in `keep` stay valid. */
  method NewGBufferFbo(dev: Device, ghost keep: set<CubeTexture>, pos: Handle, normal: Handle, color: Handle, depth: Handle)
    returns (h: Handle)
    requires dev.Valid() && AllValid(dev, keep)
    modifies dev`nextName, dev`live, dev`allocations, dev`trace, dev`gl
    ensures dev.Valid() && AllValid(dev, keep)
    ensures h != Sentinel ==> h !in old(dev.live) && h in dev.live && dev.live[h] == Lease(FramebufferObj, dev)
    ensures LeasesKept(old(dev.live), dev.live)
    ensures dev.trace == old(dev.trace) + [Gen(FramebufferObj, h)] + GBufferAttachCmds(h, pos, normal, color, depth)
    ensures dev.gl == old(dev.gl).(framebuffer := 0)
    ensures dev.log == old(dev.log) && dev.allocations == old(dev.allocations) + 1
  {
    h := dev.Allocate(FramebufferObj, dev);
    AttachGBuffer(dev, h, pos, normal, color, depth);
  }

  /** The framebuffer's lease passes from the device to its wrapper; the cube maps in `keep` are untouched. */
  ghost method AdoptFbo(dev: Device, h: Handle, keep: set<CubeTexture>, to: object)
    requires dev.Valid() && AllValid(dev, keep) && h in dev.live && dev.live[h] == Lease(FramebufferObj, dev)
    modifies dev`live
    ensures dev.Valid() && AllValid(dev, keep)
    ensures dev.live == old(dev.live)[h := Lease(FramebufferObj, to)]
  {
    dev.Transfer(h, FramebufferObj, dev, to);
  }

  /**
   * The body of the `FullFrameBuffer` constructor: the four cube maps, their
   * faces, and the framebuffer name (still leased to the device) with its attachments.
   */
  method BuildGBuffer(dev: Device, width: int, height: int) returns (n: CubeTexture, d: CubeTexture, c: CubeTexture, p: CubeTexture, h: Handle)
    requires dev.Valid()
    modifies dev`nextName, dev`live, dev`allocations, dev`trace, dev`gl, dev`log
    ensures fresh(n) && fresh(d) && fresh(c) && fresh(p)
    ensures n != d && n != c && n != p && d != c && d != p && c != p
    ensures n.dev == dev && d.dev == dev && c.dev == dev && p.dev == dev
    ensures dev.Valid() && n.Valid() && d.Valid() && c.Valid() && p.Valid()
    ensures h != Sentinel ==> h !in old(dev.live) && h in dev.live && dev.live[h] == Lease(FramebufferObj, dev)
    ensures dev.trace == GBufferTrace(old(dev.trace), n.uid, d.uid, c.uid, p.uid, h, width, height)
    ensures dev.gl.framebuffer == 0 && dev.gl.activeUnit == 0 && 0 in dev.gl.units && dev.gl.units[0] == Binding(CubeMap, c.uid)
    ensures ProgramsKept(old(dev.gl), dev.gl)
    ensures dev.log == old(dev.log) && dev.allocations == old(dev.allocations) + 5
    ensures LeasesKept(old(dev.live), dev.live)
  {
    n, d, c, p := MakeCubes(dev, width, height);
    ghost var g := dev.gl;
    h := NewGBufferFbo(dev, {n, d, c, p}, p.uid, n.uid, c.uid, d.uid);
    assert n in {n, d, c, p} && d in {n, d, c, p} && c in {n, d, c, p} && p in {n, d, c, p};
    assert dev.gl == g.(framebuffer := 0);
  }

  /** The four cube maps moved out of `rhs`, in declaration order. */
  method MoveOutCubes(rhs: FullFrameBuffer) returns (n: CubeTexture, d: CubeTexture, c: CubeTexture, p: CubeTexture)
    requires rhs.dev.Valid() && rhs.Valid() && rhs.Distinct()
    modifies rhs.normal`valid, rhs.depth`valid, rhs.color`valid, rhs.pos`valid, rhs.dev`live
    ensures fresh(n) && fresh(d) && fresh(c) && fresh(p)
    ensures n != d && n != c && n != p && d != c && d != p && c != p
    ensures n.dev == rhs.dev && d.dev == rhs.dev && c.dev == rhs.dev && p.dev == rhs.dev
    ensures rhs.dev.Valid() && n.Valid() && d.Valid() && c.Valid() && p.Valid() && rhs.Valid()
    ensures n.uid == old(rhs.normal.uid) && d.uid == old(rhs.depth.uid) && c.uid == old(rhs.color.uid) && p.uid == old(rhs.pos.uid)
    ensures n.valid == old(rhs.normal.valid) && d.valid == old(rhs.depth.valid)
    ensures c.valid == old(rhs.color.valid) && p.valid == old(rhs.pos.valid)
    ensures !rhs.normal.valid && !rhs.depth.valid && !rhs.color.valid && !rhs.pos.valid
  {
    n := MoveOutCube(rhs.normal, {rhs.depth, rhs.color, rhs.pos});
    d := MoveOutCube(rhs.depth, {n, rhs.color, rhs.pos, rhs.normal});
    c := MoveOutCube(rhs.color, {n, d, rhs.pos, rhs.normal, rhs.depth});
    p := MoveOutCube(rhs.pos, {n, d, c, rhs.normal, rhs.depth, rhs.color});
    assert n in {n, d, c, rhs.normal, rhs.depth, rhs.color} && d in {n, d, c, rhs.normal, rhs.depth, rhs.color};
  }

  /** `FullFrameBuffer`: the four cube-map attachments of the reflective shadow map and `FBO`. */
  class FullFrameBuffer {
    const dev: Device
    const normal: CubeTexture
    const depth: CubeTexture
    const color: CubeTexture
    const pos: CubeTexture
    var fbo: Handle

    ghost predicate Valid()
      reads this, dev`live, normal, depth, color, pos
    {
      normal.dev == dev && depth.dev == dev && color.dev == dev && pos.dev == dev &&
      normal.Valid() && depth.Valid() && color.Valid() && pos.Valid() && Holds(dev, fbo, this)
    }

    /** The four attachments are distinct objects. */
    predicate Distinct()
    {
      normal != depth && normal != color && normal != pos && depth != color && depth != pos && color != pos
    }

    constructor Empty(dev: Device)
      ensures this.dev == dev && fbo == Sentinel && Valid() && Distinct()
      ensures fresh(normal) && fresh(depth) && fresh(color) && fresh(pos)
      ensures !normal.valid && !depth.valid && !color.valid && !pos.valid
    {
      this.dev := dev;
      normal := new CubeTexture.Empty(dev);
      depth := new CubeTexture.Empty(dev);
      color := new CubeTexture.Empty(dev);
      pos := new CubeTexture.Empty(dev);
      fbo := Sentinel;
    }

    /**
     * `FullFrameBuffer(width, height)`: the four cube maps in declaration
     * order, their blank faces (depth as float depth, normal and position as
     * float RGB, colour as byte RGB), then a framebuffer with the layout of
     * `GBufferAttachCmds`.
     */
    constructor (dev: Device, width: int, height: int)
      requires dev.Valid()
      modifies dev`nextName, dev`live, dev`allocations, dev`trace, dev`gl, dev`log
      ensures this.dev == dev && dev.Valid() && Valid() && Distinct()
      ensures fresh(normal) && fresh(depth) && fresh(color) && fresh(pos)
      ensures dev.trace == GBufferTrace(old(dev.trace), normal.uid, depth.uid, color.uid, pos.uid, fbo, width, height)
      ensures dev.gl.framebuffer == 0 && dev.gl.activeUnit == 0 && 0 in dev.gl.units && dev.gl.units[0] == Binding(CubeMap, color.uid)
      ensures ProgramsKept(old(dev.gl), dev.gl)
      ensures dev.log == old(dev.log) && dev.allocations == old(dev.allocations) + 5
      ensures LeasesKept(old(dev.live), dev.live)
    {
      this.dev := dev;
      var n, d, c, p, h := BuildGBuffer(dev, width, height);
      normal, depth, color, pos, fbo := n, d, c, p, h;
      new;
      if fbo != Sentinel {
        AdoptFbo(dev, fbo, {normal, depth, color, pos}, this);
        assert normal in {normal, depth, color, pos} && depth in {normal, depth, color, pos};
        assert color in {normal, depth, color, pos} && pos in {normal, depth, color, pos};
      }
    }

    /** `FullFrameBuffer(FullFrameBuffer&&)`. */
    constructor Moved(rhs: FullFrameBuffer)
      requires rhs.dev.Valid() && rhs.Valid() && rhs.Distinct()
      modifies rhs`fbo, rhs.normal`valid, rhs.depth`valid, rhs.color`valid, rhs.pos`valid, rhs.dev`live
      ensures dev == rhs.dev && dev.Valid() && Valid() && rhs.Valid() && Distinct()
      ensures fbo == old(rhs.fbo) && rhs.fbo == Sentinel
      ensures normal.uid == old(rhs.normal.uid) && depth.uid == old(rhs.depth.uid)
      ensures color.uid == old(rhs.color.uid) && pos.uid == old(rhs.pos.uid)
      ensures !rhs.normal.valid && !rhs.depth.valid && !rhs.color.valid && !rhs.pos.valid
    {
      dev := rhs.dev;
      var n, d, c, p := MoveOutCubes(rhs);
      normal, depth, color, pos := n, d, c, p;
      fbo := rhs.fbo;
      new;
      if fbo != Sentinel {
        dev.Transfer(fbo, FramebufferObj, rhs, this);
      }
      rhs.fbo := Sentinel;
    }

    /** The four cube maps of the whole reflective shadow map, with those of `rhs`. */
    ghost function Cubes(rhs: FullFrameBuffer): set<CubeTexture>
      reads this, rhs
    {
      {normal, depth, color, pos, rhs.normal, rhs.depth, rhs.color, rhs.pos}
    }

    /** The texture part of `operator=(FullFrameBuffer&&)`: normal, colour, position, depth, in that order. */
    method MoveAttachments(rhs: FullFrameBuffer)
      requires rhs.dev == dev && dev.Valid() && AllValid(dev, Cubes(rhs))
      requires Distinct() && rhs.Distinct() && {normal, depth, color, pos} !! {rhs.normal, rhs.depth, rhs.color, rhs.pos}
      modifies normal, depth, color, pos, rhs.normal, rhs.depth, rhs.color, rhs.pos, dev`live, dev`trace
      ensures dev.Valid() && AllValid(dev, Cubes(rhs))
      ensures normal.uid == old(rhs.normal.uid) && depth.uid == old(rhs.depth.uid)
      ensures color.uid == old(rhs.color.uid) && pos.uid == old(rhs.pos.uid)
      ensures normal.valid == old(rhs.normal.valid) && depth.valid == old(rhs.depth.valid)
      ensures color.valid == old(rhs.color.valid) && pos.valid == old(rhs.pos.valid)
      ensures !rhs.normal.valid && !rhs.depth.valid && !rhs.color.valid && !rhs.pos.valid
      ensures NonTexturesKept(old(dev.live), dev.live) && dev.live.Keys <= old(dev.live).Keys
      ensures dev.live.Keys == old(dev.live).Keys - Named(old(normal.valid), old(normal.uid)) - Named(old(color.valid), old(color.uid))
                               - Named(old(pos.valid), old(pos.uid)) - Named(old(depth.valid), old(depth.uid))
      ensures dev.trace == old(dev.trace)
                           + DestroyCmds(old(normal.valid), old(normal.uid)) + DestroyCmds(old(color.valid), old(color.uid))
                           + DestroyCmds(old(pos.valid), old(pos.uid)) + DestroyCmds(old(depth.valid), old(depth.uid))
    {
      ghost var un, uc, up, ud := rhs.normal.uid, rhs.color.uid, rhs.pos.uid, rhs.depth.uid;
      ghost var vn, vc, vp, vd := rhs.normal.valid, rhs.color.valid, rhs.pos.valid, rhs.depth.valid;
      ghost var l0, t0 := dev.live, dev.trace;
      ghost var all := Cubes(rhs);
      assert rhs.normal !in {normal, depth, color, pos} && rhs.color !in {normal, depth, color, pos};
      assert rhs.pos !in {normal, depth, color, pos} && rhs.depth !in {normal, depth, color, pos};
      MoveCube(normal, rhs.normal, all);
      ghost var t1 := t0 + DestroyCmds(old(normal.valid), old(normal.uid));
      assert normal.uid == un && normal.valid == vn && dev.trace == t1;
      assert NonTexturesKept(l0, dev.live) && dev.live.Keys <= l0.Keys;
      MoveCube(color, rhs.color, all);
      ghost var t2 := t1 + DestroyCmds(old(color.valid), old(color.uid));
      assert color.uid == uc && color.valid == vc && dev.trace == t2;
      assert NonTexturesKept(l0, dev.live) && dev.live.Keys <= l0.Keys;
      MoveCube(pos, rhs.pos, all);
      ghost var t3 := t2 + DestroyCmds(old(pos.valid), old(pos.uid));
      assert pos.uid == up && pos.valid == vp && dev.trace == t3;
      assert NonTexturesKept(l0, dev.live) && dev.live.Keys <= l0.Keys;
      MoveCube(depth, rhs.depth, all);
    }

    /** The first step of a move assignment: its own framebuffer name, if any, is deleted. */
    method DropName(rhs: FullFrameBuffer)
      requires rhs != this && rhs.dev == dev && dev.Valid() && Valid() && rhs.Valid()
      modifies dev`live, dev`trace
      ensures dev.Valid() && AllValid(dev, Cubes(rhs)) && Holds(dev, rhs.fbo, rhs)
      ensures fbo != Sentinel ==> fbo !in dev.live
      ensures dev.live.Keys == old(dev.live).Keys - (if fbo != Sentinel then {fbo} else {})
      ensures dev.trace == old(dev.trace) + ReleaseFbo(fbo)
    {
      if fbo != Sentinel {
        dev.Release(FramebufferObj, fbo, this);
      }
    }

    /** The last step of a move assignment: the framebuffer name changes hands and the source's becomes `~0`. */
    method TakeName(rhs: FullFrameBuffer, ghost keep: set<CubeTexture>)
      requires rhs != this && rhs.dev == dev && dev.Valid() && Holds(dev, rhs.fbo, rhs) && AllValid(dev, keep)
      requires fbo != Sentinel ==> fbo !in dev.live
      modifies this`fbo, rhs`fbo, dev`live
      ensures dev.Valid() && Holds(dev, fbo, this) && Holds(dev, rhs.fbo, rhs) && AllValid(dev, keep)
      ensures fbo == old(rhs.fbo) && rhs.fbo == Sentinel
      ensures old(fbo) != Sentinel ==> old(fbo) !in dev.live
      ensures dev.live.Keys == old(dev.live).Keys
      ensures forall h :: h in old(dev.live) && old(dev.live)[h].kind != FramebufferObj ==> h in dev.live && dev.live[h] == old(dev.live)[h]
    {
      var f := rhs.fbo;
      if f != Sentinel {
        dev.Transfer(f, FramebufferObj, rhs, this);
      }
      fbo := f;
      rhs.fbo := Sentinel;
    }

    /** `operator=(FullFrameBuffer&&)`: deletes its own name, then moves normal, colour, position, depth and the name. */
    method MoveAssign(rhs: FullFrameBuffer)
      requires rhs != this && rhs.dev == dev && dev.Valid() && Valid() && rhs.Valid()
      requires Distinct() && rhs.Distinct()
      requires {normal, depth, color, pos} !! {rhs.normal, rhs.depth, rhs.color, rhs.pos}
      modifies this`fbo, rhs`fbo, normal, depth, color, pos, rhs.normal, rhs.depth, rhs.color, rhs.pos, dev`live, dev`trace
      ensures dev.Valid() && Valid() && rhs.Valid()
      ensures fbo == old(rhs.fbo) && rhs.fbo == Sentinel
      ensures normal.uid == old(rhs.normal.uid) && depth.uid == old(rhs.depth.uid)
      ensures color.uid == old(rhs.color.uid) && pos.uid == old(rhs.pos.uid)
      ensures normal.valid == old(rhs.normal.valid) && depth.valid == old(rhs.depth.valid)
      ensures color.valid == old(rhs.color.valid) && pos.valid == old(rhs.pos.valid)
      ensures !rhs.normal.valid && !rhs.depth.valid && !rhs.color.valid && !rhs.pos.valid
      ensures dev.live.Keys == old(dev.live).Keys - (if old(fbo) != Sentinel then {old(fbo)} else {})
                               - Named(old(normal.valid), old(normal.uid)) - Named(old(color.valid), old(color.uid))
                               - Named(old(pos.valid), old(pos.uid)) - Named(old(depth.valid), old(depth.uid))
      ensures dev.trace == old(dev.trace) + ReleaseFbo(old(fbo))
                           + DestroyCmds(old(normal.valid), old(normal.uid)) + DestroyCmds(old(color.valid), old(color.uid))
                           + DestroyCmds(old(pos.valid), old(pos.uid)) + DestroyCmds(old(depth.valid), old(depth.uid))
    {
      DropName(rhs);
      MoveAttachments(rhs);
      TakeName(rhs, Cubes(rhs));
      assert normal in Cubes(rhs) && depth in Cubes(rhs) && color in Cubes(rhs) && pos in Cubes(rhs);
      assert rhs.normal in Cubes(rhs) && rhs.depth in Cubes(rhs) && rhs.color in Cubes(rhs) && rhs.pos in Cubes(rhs);
    }

    /** `~FullFrameBuffer()`: the name iff not `~0`, then the members in reverse declaration order. */
    method Destroy()
      requires dev.Valid() && Valid() && Distinct()
      modifies dev`live, dev`trace
      ensures dev.Valid()
      ensures dev.trace == old(dev.trace) + ReleaseFbo(fbo)
                           + DestroyCmds(pos.valid, pos.uid) + DestroyCmds(color.valid, color.uid)
                           + DestroyCmds(depth.valid, depth.uid) + DestroyCmds(normal.valid, normal.uid)
      ensures dev.live == old(dev.live) - (if fbo != Sentinel then {fbo} else {}) - Named(pos.valid, pos.uid)
                          - Named(color.valid, color.uid) - Named(depth.valid, depth.uid) - Named(normal.valid, normal.uid)
    {
      ghost var t0, l0 := dev.trace, dev.live;
      if fbo != Sentinel {
        dev.Release(FramebufferObj, fbo, this);
      }
      ghost var t1, l1 := t0 + ReleaseFbo(fbo), l0 - (if fbo != Sentinel then {fbo} else {});
      assert dev.trace == t1 && dev.live == l1;
      pos.Destroy();
      ghost var t2, l2 := t1 + DestroyCmds(pos.valid, pos.uid), l1 - Named(pos.valid, pos.uid);
      assert dev.trace == t2 && dev.live == l2;
      color.Destroy();
      ghost var t3, l3 := t2 + DestroyCmds(color.valid, color.uid), l2 - Named(color.valid, color.uid);
      assert dev.trace == t3 && dev.live == l3;
      depth.Destroy();
      ghost var t4, l4 := t3 + DestroyCmds(depth.valid, depth.uid), l3 - Named(depth.valid, depth.uid);
      assert dev.trace == t4 && dev.live == l4;
      normal.Destroy();
      assert dev.live == l4 - Named(normal.valid, normal.uid);
    }

    /**
     * `use(id)`: binds the framebuffer, then position, normal, colour and
     * depth on the consecutive units `id` .. `id + 3`.
     */
    method Use(id: nat)
      requires dev.Valid() && normal.dev == dev && depth.dev == dev && color.dev == dev && pos.dev == dev
      modifies dev`trace, dev`gl, dev`log
      ensures dev.gl == old(dev.gl).(framebuffer := fbo, activeUnit := id + 3,
                                     units := old(dev.gl).units[id := Binding(CubeMap, pos.uid)]
                                                               [id + 1 := Binding(CubeMap, normal.uid)]
                                                               [id + 2 := Binding(CubeMap, color.uid)]
                                                               [id + 3 := Binding(CubeMap, depth.uid)])
      ensures dev.trace == old(dev.trace) + [BindFramebuffer(fbo)] + BindCmds(id, CubeMap, pos.uid)
                           + BindCmds(id + 1, CubeMap, normal.uid) + BindCmds(id + 2, CubeMap, color.uid)
                           + BindCmds(id + 3, CubeMap, depth.uid)
      ensures dev.log == old(dev.log) + BindLog(id) + BindLog(id + 1) + BindLog(id + 2) + BindLog(id + 3)
    {
      dev.Issue(BindFramebuffer(fbo));
      pos.Bind(id);
      normal.Bind(id + 1);
      color.Bind(id + 2);
      depth.Bind(id + 3);
    }
  }

  /** Two textures constructed in a row, both given real names by the driver. */
  method NewPair(dev: Device) returns (a: Texture, b: Texture)
    requires dev.Valid()
    requires dev.allocations !in dev.refused && dev.allocations + 1 !in dev.refused
    modifies dev`nextName, dev`live, dev`allocations, dev`trace, dev`gl
    ensures fresh(a) && fresh(b) && a.dev == dev && b.dev == dev && dev.Valid() && a.Valid() && b.Valid()
    ensures a.valid && b.valid && a.uid != b.uid && a.uid !in old(dev.live) && b.uid !in old(dev.live)
    ensures dev.live == old(dev.live)[a.uid := Lease(TextureObj, a)][b.uid := Lease(TextureObj, b)]
    ensures dev.trace == old(dev.trace) + CtorCmds(Texture2D, a.uid, Repeat, LinearMipmapLinear, Linear)
                         + CtorCmds(Texture2D, b.uid, Repeat, LinearMipmapLinear, Linear)
  {
    a := new Texture(dev, Repeat);
    b := new Texture(dev, Repeat);
  }

  /**
   * Two textures that both received names; the first is move-assigned from
   * the second with the assignment as written, then both are destroyed.
   * The first texture's original name was generated, is still live after
   * both destructors ran, and neither wrapper refers to it any more.
   */
  method MoveAssignLeaks(dev: Device) returns (a: Texture, b: Texture, leaked: Handle)
    requires dev.Valid()
    requires dev.allocations !in dev.refused && dev.allocations + 1 !in dev.refused
    modifies dev`nextName, dev`live, dev`allocations, dev`trace, dev`gl
    ensures leaked in dev.live && dev.live[leaked].kind == TextureObj
    ensures a.uid != leaked && b.uid != leaked
    ensures |old(dev.trace)| < |dev.trace| && dev.trace[|old(dev.trace)|] == Gen(TextureObj, leaked)
  {
    ghost var t0 := dev.trace;
    a, b := NewPair(dev);
    leaked := a.uid;
    dev.SentinelNotLive();
    assert dev.trace[|t0|] == Gen(TextureObj, leaked);
    a.MoveAssign(b);
    a.Destroy();
    b.Destroy();
  }

  /**
   * The same sequence with the releasing assignment: both names are
   * generated and both are deleted, and the live names are as before.
   */
  method MoveAssignReleasingFrees(dev: Device) returns (first: Handle, second: Handle)
    requires dev.Valid()
    requires dev.allocations !in dev.refused && dev.allocations + 1 !in dev.refused
    modifies dev`nextName, dev`live, dev`allocations, dev`trace, dev`gl
    ensures dev.live == old(dev.live) && first != second
    ensures |old(dev.trace)| <= |dev.trace|
    ensures Gen(TextureObj, first) in dev.trace[|old(dev.trace)|..] && Delete(TextureObj, first) in dev.trace[|old(dev.trace)|..]
    ensures Gen(TextureObj, second) in dev.trace[|old(dev.trace)|..] && Delete(TextureObj, second) in dev.trace[|old(dev.trace)|..]
  {
    ghost var t0 := dev.trace;
    var a, b := NewPair(dev);
    first, second := a.uid, b.uid;
    ghost var c1 := CtorCmds(Texture2D, first, Repeat, LinearMipmapLinear, Linear);
    ghost var c2 := CtorCmds(Texture2D, second, Repeat, LinearMipmapLinear, Linear);
    a.MoveAssignReleasing(b);
    a.Destroy();
    b.Destroy();
    assert dev.trace == t0 + c1 + c2 + [Delete(TextureObj, first), Delete(TextureObj, second)];
    assert dev.trace[|t0|..] == c1 + c2 + [Delete(TextureObj, first), Delete(TextureObj, second)];
    assert c1[0] == Gen(TextureObj, first) && c2[0] == Gen(TextureObj, second);
    assert dev.live == old(dev.live) by {
      assert first !in old(dev.live) && second !in old(dev.live);
    }
  }
}
