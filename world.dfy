/**
 * include/world.h: `World`, the scene registry. It owns the three programs
 * (objects, light markers, and the shadow helper), the meshes of the scene
 * and of the light markers, a path-keyed texture cache, and the offscreen
 * targets of the two shadow modes; it fills the lighting uniforms as lights
 * are added and drives the frame loop.
 */
module Worlds {
  import opened Common
  import opened Gpu
  import Shaders
  import Textures
  import Meshes
  import Builders
  import Models

  datatype Mode = NoShadow | NormalShadow | ReflectiveShadow

  /** The light records of include/light.h: plain values handed to the world. */
  datatype PointLight = PointLight(pos: Vec3, ambient: Vec3, diffuse: Vec3, specular: Vec3,
                                   constant: real, linear: real, quadratic: real)
  datatype SpotLight = SpotLight(pos: Vec3, dir: Vec3, ambient: Vec3, diffuse: Vec3, specular: Vec3,
                                 cutOff: real, outerCutOff: real)
  datatype DirLight = DirLight(dir: Vec3, ambient: Vec3, diffuse: Vec3, specular: Vec3)

  const Width: int := 800
  const Height: int := 600
  const ShadowWidth: int := 512
  const ShadowHeight: int := 512

  // ---------------------------------------------------------------------
  // Uniform names

  function DigitChar(d: nat): (c: char)
    requires d < 10
    ensures '0' <= c <= '9'
  {
    ('0' as int + d) as char
  }

  /** `std::to_string` of a non-negative count: its decimal digits, most significant first. */
  function Digits(n: nat): (r: string)
    ensures |r| >= 1 && (n >= 10 <==> |r| >= 2)
    ensures forall i :: 0 <= i < |r| ==> '0' <= r[i] <= '9'
  {
    if n < 10 then [DigitChar(n)] else Digits(n / 10) + [DigitChar(n % 10)]
  }

  /** Different counts print differently. */
  lemma {:induction false} DigitsInjective(a: nat, b: nat)
    requires Digits(a) == Digits(b)
    ensures a == b
  {
    if a >= 10 && b >= 10 {
      var da, db := Digits(a), Digits(b);
      assert da[|da| - 1] == DigitChar(a % 10) && db[|db| - 1] == DigitChar(b % 10);
      assert Digits(a / 10) == da[..|da| - 1] == db[..|db| - 1] == Digits(b / 10);
      DigitsInjective(a / 10, b / 10);
    } else if a < 10 && b < 10 {
      assert Digits(a)[0] == DigitChar(a) && Digits(b)[0] == DigitChar(b);
    }
  }

  /** The element prefix in an array of uniform structs: `base[n].`. */
  function Slot(base: string, n: nat): (r: string)
    ensures |r| == |base| + |Digits(n)| + 3
    ensures r[..|base|] == base
  {
    base + "[" + Digits(n) + "]."
  }

  /** Fields of two different elements never share a name, whatever the fields are. */
  lemma SlotsApart(base: string, a: nat, b: nat, f: string, g: string)
    requires a != b
    ensures Slot(base, a) + f != Slot(base, b) + g
  {
    var da, db := Digits(a), Digits(b);
    if da == db {
      DigitsInjective(a, b);
    }
    var s1, s2 := Slot(base, a) + f, Slot(base, b) + g;
    var k := |base| + 1;
    assert forall i :: 0 <= i < |da| ==> s1[k + i] == da[i];
    assert forall i :: 0 <= i < |db| ==> s2[k + i] == db[i];
    assert s1[k + |da|] == ']' && s2[k + |db|] == ']';
    if |da| == |db| {
      var i :| 0 <= i < |da| && da[i] != db[i];
      assert s1[k + i] != s2[k + i];
    } else if |da| < |db| {
      assert s1[k + |da|] != s2[k + |da|];
    } else {
      assert s1[k + |db|] != s2[k + |db|];
    }
  }

  /** The same field of the same element, and only it, has the same name. */
  lemma SlotFieldsApart(prefix: string, f: string, g: string)
    requires f != g
    ensures prefix + f != prefix + g
  {
    assert (prefix + f)[|prefix|..] == f && (prefix + g)[|prefix|..] == g;
  }

  predicate Distinct(names: seq<string>) {
    forall i, j :: 0 <= i < j < |names| ==> names[i] != names[j]
  }

  /** The names `prefix + field`, in order. */
  function Prefixed(prefix: string, fields: seq<string>): (r: seq<string>)
    ensures |r| == |fields|
    ensures forall i :: 0 <= i < |fields| ==> r[i] == prefix + fields[i]
  {
    if fields == [] then [] else [prefix + fields[0]] + Prefixed(prefix, fields[1..])
  }

  /** The fields of one struct element, followed by a count uniform that no field name equals, are all distinct. */
  lemma PrefixedDistinct(prefix: string, fields: seq<string>, count: string)
    requires Distinct(fields)
    requires forall i :: 0 <= i < |fields| ==> count != prefix + fields[i]
    ensures Distinct(Prefixed(prefix, fields) + [count])
  {
    var r := Prefixed(prefix, fields) + [count];
    forall i, j | 0 <= i < j < |r|
      ensures r[i] != r[j]
    {
      if j < |fields| {
        SlotFieldsApart(prefix, fields[i], fields[j]);
      }
    }
  }

  const PointFields: seq<string> := ["pos", "ambient", "diffuse", "specular", "constant", "linear", "quadratic"]
  const SpotFields: seq<string> := ["pos", "dir", "ambient", "diffuse", "specular", "cut_off", "outer_cut_off"]
  const DirNames: seq<string> := ["dir_light.dir", "dir_light.ambient", "dir_light.diffuse", "dir_light.specular", "dir_light_num"]
  /** The helper program's copy of the last point light, kept in reflective-shadow mode. */
  const MirrorNames: seq<string> := ["light.diffuse", "light.constant", "light.linear", "light.quadratic"]

  /** The uniforms `build_point_light` writes for the light in slot `n`, the light count last. */
  function PointLightNames(n: nat): (r: seq<string>)
    ensures |r| == 8 && r[7] == "point_light_num"
  {
    Prefixed(Slot("point_lights", n), PointFields) + ["point_light_num"]
  }

  function PointLightValues(l: PointLight, n: nat): seq<Value> {
    [Vec3V(l.pos), Vec3V(l.ambient), Vec3V(l.diffuse), Vec3V(l.specular),
     FloatV(l.constant), FloatV(l.linear), FloatV(l.quadratic), IntV(n + 1)]
  }

  function SpotLightNames(n: nat): (r: seq<string>)
    ensures |r| == 8 && r[7] == "spot_light_num"
  {
    Prefixed(Slot("spot_lights", n), SpotFields) + ["spot_light_num"]
  }

  function SpotLightValues(l: SpotLight, n: nat): seq<Value> {
    [Vec3V(l.pos), Vec3V(l.dir), Vec3V(l.ambient), Vec3V(l.diffuse), Vec3V(l.specular),
     FloatV(l.cutOff), FloatV(l.outerCutOff), IntV(n + 1)]
  }

  function DirLightValues(l: DirLight): seq<Value> {
    [Vec3V(l.dir), Vec3V(l.ambient), Vec3V(l.diffuse), Vec3V(l.specular), IntV(1)]
  }

  function MirrorValues(l: PointLight): seq<Value> {
    [Vec3V(l.diffuse), FloatV(l.constant), FloatV(l.linear), FloatV(l.quadratic)]
  }

  /** No two uniforms written for one point light share a name, so each keeps the value written to it. */
  lemma PointLightNamesDistinct(n: nat)
    ensures Distinct(PointLightNames(n))
  {
    var prefix := Slot("point_lights", n);
    assert prefix[..12] == "point_lights";
    forall i | 0 <= i < |PointFields|
      ensures "point_light_num" != prefix + PointFields[i]
    {
      assert (prefix + PointFields[i])[11] == 's';
    }
    PrefixedDistinct(prefix, PointFields, "point_light_num");
  }

  /** The same for a spot light. */
  lemma SpotLightNamesDistinct(n: nat)
    ensures Distinct(SpotLightNames(n))
  {
    var prefix := Slot("spot_lights", n);
    assert prefix[..11] == "spot_lights";
    forall i | 0 <= i < |SpotFields|
      ensures "spot_light_num" != prefix + SpotFields[i]
    {
      assert (prefix + SpotFields[i])[10] == 's';
    }
    PrefixedDistinct(prefix, SpotFields, "spot_light_num");
  }

  /** Adding the light of slot `n` writes none of the field uniforms of an earlier slot `k`. */
  lemma EarlierPointLightUntouched(k: nat, n: nat, f: string)
    requires k < n
    ensures Slot("point_lights", k) + f !in PointLightNames(n)
  {
    var names := PointLightNames(n);
    forall i | 0 <= i < |names|
      ensures names[i] != Slot("point_lights", k) + f
    {
      if i < |PointFields| {
        SlotsApart("point_lights", k, n, f, PointFields[i]);
      } else {
        assert (Slot("point_lights", k) + f)[11] == 's';
      }
    }
  }

  /** The same for spot lights. */
  lemma EarlierSpotLightUntouched(k: nat, n: nat, f: string)
    requires k < n
    ensures Slot("spot_lights", k) + f !in SpotLightNames(n)
  {
    var names := SpotLightNames(n);
    forall i | 0 <= i < |names|
      ensures names[i] != Slot("spot_lights", k) + f
    {
      if i < |SpotFields| {
        SlotsApart("spot_lights", k, n, f, SpotFields[i]);
      } else {
        assert (Slot("spot_lights", k) + f)[10] == 's';
      }
    }
  }

  // ---------------------------------------------------------------------
  // Batches of uniform writes

  /** The uniform store after writing `values[i]` to `names[i]` of program `p`, in order. */
  function WriteAll(u: map<(Handle, string), Value>, p: Handle, locate: (Handle, string) -> int,
                    names: seq<string>, values: seq<Value>): map<(Handle, string), Value>
    requires |names| == |values|
    decreases |names|
  {
    if names == [] then u
    else
      var n := |names| - 1;
      Shaders.Written(WriteAll(u, p, locate, names[..n], values[..n]), p, locate(p, names[n]), names[n], values[n])
  }

  /** `name` of program `p` reads `v` from the store `u`, unless the program has no such uniform. */
  ghost predicate Stored(u: map<(Handle, string), Value>, loc: int, p: Handle, name: string, v: Value) {
    loc >= 0 ==> (p, name) in u && u[(p, name)] == v
  }

  /** With distinct names, every uniform of the batch reads the value written to it. */
  lemma {:induction false} WriteAllStores(u: map<(Handle, string), Value>, p: Handle, locate: (Handle, string) -> int,
                                          names: seq<string>, values: seq<Value>, j: nat)
    requires |names| == |values| && Distinct(names) && j < |names|
    ensures Stored(WriteAll(u, p, locate, names, values), locate(p, names[j]), p, names[j], values[j])
    decreases |names|
  {
    var n := |names| - 1;
    if j < n {
      WriteAllStores(u, p, locate, names[..n], values[..n], j);
      assert names[n] != names[j];
    }
  }

  /** A batch leaves every other entry of the store as it was, and so does a name the program lacks. */
  lemma {:induction false} WriteAllKeeps(u: map<(Handle, string), Value>, p: Handle, locate: (Handle, string) -> int,
                                         names: seq<string>, values: seq<Value>, k: (Handle, string))
    requires |names| == |values| && (k.0 != p || k.1 !in names || locate(p, k.1) < 0)
    ensures k in WriteAll(u, p, locate, names, values) <==> k in u
    ensures k in u ==> WriteAll(u, p, locate, names, values)[k] == u[k]
    decreases |names|
  {
    if names != [] {
      var n := |names| - 1;
      assert k.1 in names[..n] ==> k.1 in names;
      WriteAllKeeps(u, p, locate, names[..n], values[..n], k);
    }
  }

  /** `prog.set(names[i], values[i])` for each `i` in order; no render pass is issued. */
  method SetAll(prog: Shaders.Program, names: seq<string>, values: seq<Value>)
    requires prog.dev.Valid() && prog.Valid() && |names| == |values|
    modifies prog`cache, prog.cell, prog.dev`trace, prog.dev`gl, prog.dev`log
    ensures prog.dev.Valid() && prog.Valid()
    ensures old(prog.dev.trace) <= prog.dev.trace && Passes(prog.dev.trace) == Passes(old(prog.dev.trace))
    ensures prog.dev.gl == old(prog.dev.gl).(program := if names == [] then old(prog.dev.gl.program) else prog.uid,
                                             uniforms := WriteAll(old(prog.dev.gl.uniforms), prog.uid, prog.dev.locate, names, values))
    ensures prog.dev.live == old(prog.dev.live) && prog.dev.allocations == old(prog.dev.allocations)
  {
    var dev := prog.dev;
    ghost var t0, g0 := dev.trace, dev.gl;
    for i := 0 to |names|
      invariant dev.Valid() && prog.Valid()
      invariant t0 <= dev.trace && Passes(dev.trace) == Passes(t0)
      invariant dev.gl == g0.(program := if i == 0 then g0.program else prog.uid,
                              uniforms := WriteAll(g0.uniforms, prog.uid, dev.locate, names[..i], values[..i]))
      invariant dev.live == old(dev.live) && dev.allocations == old(dev.allocations)
    {
      Meshes.SetQuietly(prog, names[i], values[i]);
      assert names[..i + 1][..i] == names[..i] && values[..i + 1][..i] == values[..i];
    }
    assert names[..|names|] == names && values[..|values|] == values;
  }

  /** The store after `build_point_light` adds the light of slot `n` (mirrored into the helper program in reflective mode). */
  function PointLightUniforms(u: map<(Handle, string), Value>, locate: (Handle, string) -> int, mode: Mode,
                              o: Handle, h: Handle, light: PointLight, n: nat): map<(Handle, string), Value>
  {
    var u1 := WriteAll(u, o, locate, PointLightNames(n), PointLightValues(light, n));
    if mode == ReflectiveShadow then WriteAll(u1, h, locate, MirrorNames, MirrorValues(light)) else u1
  }

  /**
   * Every uniform of slot `n` reads the matching field of the light, and
   * `point_light_num` reads `n + 1`, the new number of point lights.
   */
  lemma PointLightStored(u: map<(Handle, string), Value>, locate: (Handle, string) -> int, mode: Mode,
                         o: Handle, h: Handle, light: PointLight, n: nat, i: nat)
    requires o != h && i < 8
    ensures Stored(PointLightUniforms(u, locate, mode, o, h, light, n),
                   locate(o, PointLightNames(n)[i]), o, PointLightNames(n)[i], PointLightValues(light, n)[i])
    ensures i == 7 ==> PointLightNames(n)[i] == "point_light_num" && PointLightValues(light, n)[i] == IntV(n + 1)
  {
    var names, values := PointLightNames(n), PointLightValues(light, n);
    PointLightNamesDistinct(n);
    WriteAllStores(u, o, locate, names, values, i);
    if mode == ReflectiveShadow {
      WriteAllKeeps(WriteAll(u, o, locate, names, values), h, locate, MirrorNames, MirrorValues(light), (o, names[i]));
    }
  }

  /**
   * The uniforms of an earlier point-light slot `j`, and those of any
   * program other than the two written, are left alone.
   */
  lemma PointLightKeeps(u: map<(Handle, string), Value>, locate: (Handle, string) -> int, mode: Mode,
                        o: Handle, h: Handle, light: PointLight, n: nat, k: (Handle, string), j: nat, f: string)
    requires k.0 != h || mode != ReflectiveShadow
    requires k.0 != o || (j < n && k.1 == Slot("point_lights", j) + f)
    ensures var r := PointLightUniforms(u, locate, mode, o, h, light, n);
            (k in r <==> k in u) && (k in u ==> r[k] == u[k])
  {
    var names, values := PointLightNames(n), PointLightValues(light, n);
    if k.0 == o {
      EarlierPointLightUntouched(j, n, f);
    }
    WriteAllKeeps(u, o, locate, names, values, k);
    if mode == ReflectiveShadow {
      WriteAllKeeps(WriteAll(u, o, locate, names, values), h, locate, MirrorNames, MirrorValues(light), k);
    }
  }

  /** In reflective mode the helper program's `light.*` uniforms read the light's diffuse colour and attenuation. */
  lemma PointLightMirrored(u: map<(Handle, string), Value>, locate: (Handle, string) -> int,
                           o: Handle, h: Handle, light: PointLight, n: nat, i: nat)
    requires i < 4
    ensures Stored(PointLightUniforms(u, locate, ReflectiveShadow, o, h, light, n),
                   locate(h, MirrorNames[i]), h, MirrorNames[i], MirrorValues(light)[i])
  {
    assert Distinct(MirrorNames) by {
      assert forall a, b :: 0 <= a < b < 4 ==> MirrorNames[a][7] != MirrorNames[b][7] || |MirrorNames[a]| != |MirrorNames[b]|;
    }
    WriteAllStores(WriteAll(u, o, locate, PointLightNames(n), PointLightValues(light, n)), h, locate,
                   MirrorNames, MirrorValues(light), i);
  }

  /** Every uniform of spot-light slot `n` reads the matching field, and `spot_light_num` reads `n + 1`. */
  lemma SpotLightStored(u: map<(Handle, string), Value>, locate: (Handle, string) -> int,
                        o: Handle, light: SpotLight, n: nat, i: nat)
    requires i < 8
    ensures Stored(WriteAll(u, o, locate, SpotLightNames(n), SpotLightValues(light, n)),
                   locate(o, SpotLightNames(n)[i]), o, SpotLightNames(n)[i], SpotLightValues(light, n)[i])
    ensures i == 7 ==> SpotLightNames(n)[i] == "spot_light_num" && SpotLightValues(light, n)[i] == IntV(n + 1)
  {
    SpotLightNamesDistinct(n);
    WriteAllStores(u, o, locate, SpotLightNames(n), SpotLightValues(light, n), i);
  }

  /** The uniforms of an earlier spot-light slot are left alone. */
  lemma SpotLightKeeps(u: map<(Handle, string), Value>, locate: (Handle, string) -> int,
                       o: Handle, light: SpotLight, n: nat, j: nat, f: string)
    requires j < n
    ensures var r := WriteAll(u, o, locate, SpotLightNames(n), SpotLightValues(light, n));
            var k := (o, Slot("spot_lights", j) + f);
            (k in r <==> k in u) && (k in u ==> r[k] == u[k])
  {
    EarlierSpotLightUntouched(j, n, f);
    WriteAllKeeps(u, o, locate, SpotLightNames(n), SpotLightValues(light, n), (o, Slot("spot_lights", j) + f));
  }

  lemma DirNamesDistinct()
    ensures Distinct(DirNames)
  {
    assert forall a, b :: 0 <= a < b < 5 ==> DirNames[a][11] != DirNames[b][11] || |DirNames[a]| != |DirNames[b]|;
  }

  /** After `build_dir_light` every directional uniform reads the light, and `dir_light_num` reads 1. */
  lemma DirLightStored(u: map<(Handle, string), Value>, locate: (Handle, string) -> int, o: Handle, light: DirLight, i: nat)
    requires i < 5
    ensures Stored(WriteAll(u, o, locate, DirNames, DirLightValues(light)), locate(o, DirNames[i]), o, DirNames[i], DirLightValues(light)[i])
    ensures i == 4 ==> DirNames[i] == "dir_light_num" && DirLightValues(light)[i] == IntV(1)
  {
    DirNamesDistinct();
    WriteAllStores(u, o, locate, DirNames, DirLightValues(light), i);
  }

  /** A second directional light overwrites the single block: the store is as if only the second were built. */
  lemma DirLightRepeat(u: map<(Handle, string), Value>, locate: (Handle, string) -> int, o: Handle, first: DirLight, second: DirLight)
    ensures WriteAll(WriteAll(u, o, locate, DirNames, DirLightValues(first)), o, locate, DirNames, DirLightValues(second))
         == WriteAll(u, o, locate, DirNames, DirLightValues(second))
  {
    var mid := WriteAll(u, o, locate, DirNames, DirLightValues(first));
    var lhs := WriteAll(mid, o, locate, DirNames, DirLightValues(second));
    var rhs := WriteAll(u, o, locate, DirNames, DirLightValues(second));
    DirNamesDistinct();
    forall k
      ensures (k in lhs <==> k in rhs) && (k in lhs ==> lhs[k] == rhs[k])
    {
      if k.0 == o && k.1 in DirNames && locate(o, k.1) >= 0 {
        var i :| 0 <= i < 5 && DirNames[i] == k.1;
        WriteAllStores(mid, o, locate, DirNames, DirLightValues(second), i);
        WriteAllStores(u, o, locate, DirNames, DirLightValues(second), i);
      } else {
        WriteAllKeeps(mid, o, locate, DirNames, DirLightValues(second), k);
        WriteAllKeeps(u, o, locate, DirNames, DirLightValues(first), k);
        WriteAllKeeps(u, o, locate, DirNames, DirLightValues(second), k);
      }
    }
  }

  // ---------------------------------------------------------------------
  // Scene contents

  /** Every mesh of `ms` belongs to `dev`, holds its names, and samples textures of `dev`. */
  ghost predicate Drawable(dev: Device, ms: seq<Meshes.Mesh>)
    reads dev`live, ms
  {
    forall i :: 0 <= i < |ms| ==>
      ms[i].dev == dev && ms[i].Valid() &&
      (ms[i].diffuse != null ==> ms[i].diffuse.dev == dev) && (ms[i].specular != null ==> ms[i].specular.dev == dev)
  }

  /** Every cached texture belongs to `dev` and holds its name. */
  ghost predicate Cached(dev: Device, textures: map<string, Textures.Texture>)
    reads dev`live, textures.Values
  {
    forall p :: p in textures ==> textures[p].dev == dev && textures[p].Valid()
  }

  /** Meshes whose fields are untouched stay drawable while every lease is kept. */
  twostate lemma DrawableKept(new dev: Device, new ms: seq<Meshes.Mesh>)
    requires old(allocated(dev)) && old(allocated(ms))
    requires old(Drawable(dev, ms)) && Textures.LeasesKept(old(dev.live), dev.live)
    requires forall i :: 0 <= i < |ms| ==> unchanged(ms[i])
    ensures Drawable(dev, ms)
  {
    forall i | 0 <= i < |ms|
      ensures ms[i].Valid()
    {
      assert old(ms[i].Valid());
    }
  }

  /** `emplace_back(Mesh(...))`: a temporary mesh is built, moved into the vector, and destroyed empty. */
  method Emplace(dev: Device, vertices: seq<Meshes.Vertex>, indices: seq<nat>,
                 diffuse: Textures.Texture?, specular: Textures.Texture?, model: Transform) returns (m: Meshes.Mesh)
    requires dev.Valid()
    modifies dev`nextName, dev`live, dev`allocations, dev`trace, dev`gl
    ensures fresh(m) && m.dev == dev && dev.Valid() && m.Valid()
    ensures m.diffuse == diffuse && m.specular == specular && m.model == model && m.indiceNum == |indices|
    ensures m.vertices == vertices && m.indices == indices
    ensures Textures.LeasesKept(old(dev.live), dev.live)
    ensures dev.trace == old(dev.trace) + Meshes.BuildCmds(m.vao, m.vbo, m.ebo, |vertices|, |indices|)
    ensures dev.gl == if |indices| == 0 then old(dev.gl)
                      else old(dev.gl).(vertexArray := 0, buffers := old(dev.gl).buffers[ArrayBuffer := m.vbo][ElementArrayBuffer := m.ebo])
    ensures dev.allocations == old(dev.allocations) + (if |indices| > 0 then 3 else 0)
  {
    var tmp := new Meshes.Mesh(dev, vertices, indices, diffuse, specular, model);
    m := new Meshes.Mesh.Moved(tmp);
    dev.SentinelNotLive();
    tmp.Destroy();
  }

  // ---------------------------------------------------------------------
  // Programs

  /** The stage file at `path` is readable and its text compiles. */
  predicate Compiles(dev: Device, path: string) {
    path in dev.files && dev.files[path] in dev.compilable
  }

  /** The texts of the files at `paths`, in order. */
  function Texts(files: map<string, string>, paths: seq<string>): (r: seq<string>)
    requires forall i :: 0 <= i < |paths| ==> paths[i] in files
    ensures |r| == |paths| && forall i :: 0 <= i < |paths| ==> r[i] == files[paths[i]]
  {
    seq(|paths|, i requires 0 <= i < |paths| => files[paths[i]])
  }

  /** Every stage in `paths` compiles and the program made of them, attached in order, links. */
  predicate Builds(dev: Device, paths: seq<string>) {
    (forall i :: 0 <= i < |paths| ==> Compiles(dev, paths[i])) && Texts(dev.files, paths) in dev.linkable
  }

  /** The stages of the object program. */
  function ObjectStages(mode: Mode): seq<string> {
    match mode
    case NoShadow => ["./shader/general.vs", "./shader/object.fs"]
    case NormalShadow => ["./shader/general_shadow.vs", "./shader/object_shadow.fs"]
    case ReflectiveShadow => ["./shader/general_shadow.vs", "./shader/object_rsm.fs"]
  }

  /** The stages of the light-marker program. */
  const LightStages: seq<string> := ["./shader/general.vs", "./shader/light.fs"]

  /** The stages of the helper program that renders the shadow pass. */
  function HelperStages(mode: Mode): seq<string> {
    match mode
    case NoShadow => []
    case NormalShadow => ["./shader/shadow.vs", "./shader/shadow.fs", "./shader/shadow.gs"]
    case ReflectiveShadow => ["./shader/rsm.vs", "./shader/rsm.fs", "./shader/rsm.gs"]
  }

  /**
   * `m_fail` after construction: some stage of the object or light program
   * does not compile or one of them does not link, or, in a shadow mode, the
   * same holds of the helper program.
   */
  predicate FailsToBuild(dev: Device, mode: Mode) {
    !(Builds(dev, ObjectStages(mode)) && Builds(dev, LightStages)) ||
    (mode != NoShadow && !Builds(dev, HelperStages(mode)))
  }

  /** The `Shader` objects of one constructor branch, created in declaration order. */
  method MakeStages(dev: Device, paths: seq<string>, stages: seq<StageType>) returns (shaders: seq<Shaders.Shader>)
    requires dev.Valid() && |paths| == |stages|
    modifies dev`nextName, dev`live, dev`trace, dev`gl, dev`log
    ensures dev.Valid() && |shaders| == |paths|
    ensures forall i :: 0 <= i < |shaders| ==>
              fresh(shaders[i]) && shaders[i].dev == dev && shaders[i].Valid() && shaders[i].path == paths[i] &&
              shaders[i].uid !in old(dev.live) && (shaders[i].valid <==> Compiles(dev, paths[i]))
    ensures forall i :: 0 <= i < |shaders| && paths[i] in dev.files ==>
              shaders[i].uid in dev.gl.sources && dev.gl.sources[shaders[i].uid] == dev.files[paths[i]]
    ensures forall i, j :: 0 <= i < j < |shaders| ==> shaders[i] != shaders[j]
    ensures dev.gl == old(dev.gl).(sources := dev.gl.sources)
    ensures Textures.LeasesKept(old(dev.live), dev.live) && dev.allocations == old(dev.allocations)
  {
    shaders := [];
    for i := 0 to |paths|
      invariant dev.Valid() && |shaders| == i
      invariant forall j :: 0 <= j < i ==>
                  fresh(shaders[j]) && shaders[j].dev == dev && shaders[j].Valid() && shaders[j].path == paths[j] &&
                  shaders[j].uid !in old(dev.live) && (shaders[j].valid <==> Compiles(dev, paths[j]))
      invariant forall j :: 0 <= j < i && paths[j] in dev.files ==>
                  shaders[j].uid in dev.gl.sources && dev.gl.sources[shaders[j].uid] == dev.files[paths[j]]
      invariant forall j, k :: 0 <= j < k < i ==> shaders[j] != shaders[k]
      invariant dev.gl == old(dev.gl).(sources := dev.gl.sources)
      invariant Textures.LeasesKept(old(dev.live), dev.live) && dev.allocations == old(dev.allocations)
    {
      var s := new Shaders.Shader(dev, stages[i], paths[i]);
      shaders := shaders + [s];
    }
  }

  /**
   * `prog.link(shaders...)` on a program with nothing attached: it links iff
   * the texts of the stage files, in argument order, link.
   */
  method LinkStages(prog: Shaders.Program, shaders: seq<Shaders.Shader>, ghost paths: seq<string>) returns (ok: bool)
    requires prog.dev.Valid() && prog.Valid() && 1 <= |shaders| == |paths|
    requires Attached(prog.dev.gl, prog.uid) == []
    requires forall i :: 0 <= i < |shaders| ==> paths[i] in prog.dev.files && shaders[i].uid in prog.dev.gl.sources &&
                                                 prog.dev.gl.sources[shaders[i].uid] == prog.dev.files[paths[i]]
    modifies prog.dev`trace, prog.dev`gl, prog.dev`log
    ensures prog.dev.Valid() && prog.Valid()
    ensures ok <==> Texts(prog.dev.files, paths) in prog.dev.linkable
    ensures prog.dev.gl == old(prog.dev.gl).(attached := old(prog.dev.gl.attached)[prog.uid := Shaders.Ids(shaders)])
    ensures prog.dev.live == old(prog.dev.live) && prog.dev.allocations == old(prog.dev.allocations)
  {
    ghost var g := prog.dev.gl;
    ok := prog.Link(shaders);
    assert prog.dev.gl.sources == g.sources;
    assert Attached(prog.dev.gl, prog.uid) == Shaders.Ids(shaders);
    StageSources(prog.dev.gl, shaders, prog.dev.files, paths);
  }

  /** The sources of shaders whose texts are those of the files at `paths` are exactly those texts. */
  lemma StageSources(g: GlState, shaders: seq<Shaders.Shader>, files: map<string, string>, paths: seq<string>)
    requires |shaders| == |paths|
    requires forall i :: 0 <= i < |shaders| ==>
               paths[i] in files && shaders[i].uid in g.sources && g.sources[shaders[i].uid] == files[paths[i]]
    ensures SourcesOf(g, Shaders.Ids(shaders)) == Some(Texts(files, paths))
  {
    var ids := Shaders.Ids(shaders);
    assert forall i :: 0 <= i < |ids| ==> ids[i] in g.sources;
    assert SourcesOf(g, ids).value == Texts(files, paths);
  }

  /**
   * The failure flag of a constructor branch: the four stages are checked,
   * then the object program is linked and, only if that succeeds, the light
   * program; the `||` chain stops at the first failure.
   */
  method LinkMain(o: Shaders.Program, l: Shaders.Program, shaders: seq<Shaders.Shader>, ghost paths: seq<string>)
    returns (failed: bool)
    requires o.dev.Valid() && o != l && l.dev == o.dev && l.cell == o.cell && o.Valid() && l.Valid()
    requires |shaders| == |paths| == 4
    requires Attached(o.dev.gl, o.uid) == [] && Attached(o.dev.gl, l.uid) == []
    requires forall i :: 0 <= i < 4 ==> (shaders[i].valid <==> Compiles(o.dev, paths[i]))
    requires forall i :: 0 <= i < 4 && paths[i] in o.dev.files ==>
               shaders[i].uid in o.dev.gl.sources && o.dev.gl.sources[shaders[i].uid] == o.dev.files[paths[i]]
    modifies o.dev`trace, o.dev`gl, o.dev`log
    ensures o.dev.Valid() && o.Valid() && l.Valid()
    ensures failed <==> !(Builds(o.dev, paths[..2]) && Builds(o.dev, paths[2..]))
    ensures o.dev.gl == old(o.dev.gl).(attached := o.dev.gl.attached)
    ensures forall p :: p != o.uid && p != l.uid ==> Attached(o.dev.gl, p) == Attached(old(o.dev.gl), p)
    ensures o.dev.live == old(o.dev.live) && o.dev.allocations == old(o.dev.allocations)
  {
    var dev := o.dev;
    failed := !shaders[0].valid || !shaders[1].valid || !shaders[2].valid || !shaders[3].valid;
    if !failed {
      var ok := LinkStages(o, shaders[..2], paths[..2]);
      failed := !ok;
      if !failed {
        assert Attached(dev.gl, l.uid) == [];
        ok := LinkStages(l, shaders[2..], paths[2..]);
        failed := !ok;
      }
    }
  }

  /** The `glDeleteShader`s of the destructors at the end of a block: the last declared goes first. */
  function StageDeletes(shaders: seq<Shaders.Shader>): seq<Cmd> {
    if shaders == [] then []
    else StageDeletes(shaders[1..]) + (if shaders[0].valid then [Delete(ShaderObj, shaders[0].uid)] else [])
  }

  /** The shader destructors at the end of a constructor block; only shader leases go. */
  method ReleaseStages(dev: Device, shaders: seq<Shaders.Shader>)
    requires dev.Valid() && forall i :: 0 <= i < |shaders| ==> shaders[i].dev == dev && shaders[i].Valid()
    requires forall i, j :: 0 <= i < j < |shaders| ==> shaders[i] != shaders[j]
    modifies dev`live, dev`trace
    ensures dev.Valid()
    ensures dev.trace == old(dev.trace) + StageDeletes(shaders)
    ensures forall h :: h in old(dev.live) && old(dev.live)[h].kind != ShaderObj ==> h in dev.live && dev.live[h] == old(dev.live)[h]
  {
    var i := |shaders|;
    while i > 0
      invariant 0 <= i <= |shaders| && dev.Valid()
      invariant forall j :: 0 <= j < i ==> shaders[j].Valid()
      invariant dev.trace == old(dev.trace) + StageDeletes(shaders[i..])
      invariant forall h :: h in old(dev.live) && old(dev.live)[h].kind != ShaderObj ==> h in dev.live && dev.live[h] == old(dev.live)[h]
    {
      i := i - 1;
      shaders[i].Destroy();
      assert shaders[i..][1..] == shaders[i + 1..];
    }
  }

  // ---------------------------------------------------------------------
  // Default uniforms

  /** The projection the constructor writes: a 45-degree perspective at the window's aspect ratio. */
  const Projection: Transform := [Perspective(45.0, 800.0 / 600.0, 0.1, 100.0)]

  const ObjectDefaultNames: seq<string> := ["projection", "material.shininess", "dir_light_num", "point_light_num", "spot_light_num"]
  const ObjectDefaultValues: seq<Value> := [Mat4V(Projection), FloatV(32.0), IntV(0), IntV(0), IntV(0)]
  const LightDefaultNames: seq<string> := ["projection", "light_color"]
  const LightDefaultValues: seq<Value> := [Mat4V(Projection), Vec3V(Vec3(1.0, 1.0, 1.0))]

  /** The sampler uniforms of a shadow mode and the texture units they name. */
  function SamplerNames(mode: Mode): seq<string> {
    match mode
    case NoShadow => []
    case NormalShadow => ["depth_map"]
    case ReflectiveShadow => ["indirect_map", "normal_map", "pos_map", "depth_map"]
  }

  function SamplerValues(mode: Mode): (r: seq<Value>)
    ensures |r| == |SamplerNames(mode)|
  {
    match mode
    case NoShadow => []
    case NormalShadow => [IntV(14)]
    case ReflectiveShadow => [IntV(13), IntV(12), IntV(11), IntV(14)]
  }

  /** The uniform store after the constructor's writes. */
  function DefaultUniforms(u: map<(Handle, string), Value>, locate: (Handle, string) -> int, mode: Mode,
                           o: Handle, l: Handle): map<(Handle, string), Value> {
    WriteAll(WriteAll(WriteAll(u, o, locate, ObjectDefaultNames, ObjectDefaultValues),
                      l, locate, LightDefaultNames, LightDefaultValues),
             o, locate, SamplerNames(mode), SamplerValues(mode))
  }

  /** Cached textures whose fields are untouched stay valid while every lease is kept. */
  twostate lemma CachedKept(new dev: Device, new textures: map<string, Textures.Texture>)
    requires old(allocated(dev)) && old(allocated(textures))
    requires old(Cached(dev, textures)) && Textures.LeasesKept(old(dev.live), dev.live)
    requires forall p :: p in textures ==> unchanged(textures[p])
    ensures Cached(dev, textures)
  {
    forall p | p in textures
      ensures textures[p].Valid()
    {
      assert old(textures[p].Valid());
    }
  }

  /** Every entry of the cache `t0` is still in `t1`, unchanged. */
  ghost predicate Extends(t0: map<string, Textures.Texture>, t1: map<string, Textures.Texture>) {
    forall p :: p in t0 ==> p in t1 && t1[p] == t0[p]
  }

  /** Every lease except those of shaders survives. */
  ghost predicate KeptButShaders(before: map<Handle, Lease>, after: map<Handle, Lease>) {
    forall h :: h in before && before[h].kind != ShaderObj ==> h in after && after[h] == before[h]
  }

  /** Three distinct valid programs of `dev` sharing the active cell `c`. */
  ghost predicate Trio(dev: Device, c: Shaders.ActiveCell, o: Shaders.Program, l: Shaders.Program, h: Shaders.Program)
    reads dev`live, dev`gl, c, o, l, h
  {
    o != l && o != h && l != h && o.dev == dev && l.dev == dev && h.dev == dev &&
    o.cell == c && l.cell == c && h.cell == c && o.Valid() && l.Valid() && h.Valid()
  }

  /** The programs stay valid while their leases are kept and the bound program does not change. */
  twostate lemma TrioStays(new dev: Device, new c: Shaders.ActiveCell, new o: Shaders.Program, new l: Shaders.Program, new h: Shaders.Program)
    requires old(allocated(dev)) && old(allocated(c)) && old(allocated(o)) && old(allocated(l)) && old(allocated(h))
    requires old(Trio(dev, c, o, l, h)) && unchanged(c, o, l, h)
    requires KeptButShaders(old(dev.live), dev.live) && dev.gl.program == old(dev.gl.program)
    ensures Trio(dev, c, o, l, h)
  {
  }

  /**
   * The miss path of `build_texture`: a repeat-wrapped texture is created
   * and loaded from `path`, the cache slot is default-constructed, and the
   * texture is moved into it; the moved-from temporary then releases nothing.
   */
  method LoadTexture(dev: Device, path: string) returns (entry: Textures.Texture)
    requires dev.Valid()
    modifies dev`nextName, dev`live, dev`allocations, dev`trace, dev`gl, dev`log
    ensures fresh(entry) && entry.dev == dev && dev.Valid() && entry.Valid()
    ensures entry.valid <==> old(dev.allocations) !in dev.refused
    ensures dev.trace == old(dev.trace) + Textures.CtorCmds(Texture2D, entry.uid, Repeat, LinearMipmapLinear, Linear)
                                        + Textures.LoadCmds(dev.images, path, entry.uid, true)
    ensures dev.log == old(dev.log) + (if path in dev.images then [] else [TextureLoadFailed(path)])
    ensures Textures.LeasesKept(old(dev.live), dev.live) && Textures.ProgramsKept(old(dev.gl), dev.gl)
    ensures dev.allocations == old(dev.allocations) + 1
  {
    var temp := new Textures.Texture(dev, Repeat);
    var _ := temp.Load(path);
    entry := new Textures.Texture.Empty(dev);
    entry.MoveAssignReleasing(temp);
    temp.Destroy();
  }

  /** The three program members, default-constructed in declaration order, and the shared active cell. */
  method NewPrograms(dev: Device) returns (c: Shaders.ActiveCell, o: Shaders.Program, l: Shaders.Program, h: Shaders.Program)
    requires dev.Valid()
    modifies dev`nextName, dev`live, dev`trace, dev`gl
    ensures dev.Valid() && fresh(c) && fresh(o) && fresh(l) && fresh(h) && Trio(dev, c, o, l, h)
    ensures Attached(dev.gl, o.uid) == [] && Attached(dev.gl, l.uid) == [] && Attached(dev.gl, h.uid) == []
    ensures dev.gl.program == old(dev.gl.program) && dev.gl.uniforms == old(dev.gl.uniforms)
    ensures Textures.LeasesKept(old(dev.live), dev.live)
  {
    c := new Shaders.ActiveCell();
    o := new Shaders.Program(dev, c);
    l := new Shaders.Program(dev, c);
    h := new Shaders.Program(dev, c);
  }

  /**
   * The first statement of every constructor branch: the four stages of the
   * object and light programs are created, and the failure flag is computed
   * by `LinkMain`. The shaders are returned: their block has not ended yet.
   */
  method BuildMain(dev: Device, c: Shaders.ActiveCell, o: Shaders.Program, l: Shaders.Program, h: Shaders.Program, mode: Mode)
    returns (failed: bool, shaders: seq<Shaders.Shader>)
    requires dev.Valid() && Trio(dev, c, o, l, h) && Attached(dev.gl, o.uid) == [] && Attached(dev.gl, l.uid) == []
    modifies dev`nextName, dev`live, dev`trace, dev`gl, dev`log
    ensures dev.Valid() && Trio(dev, c, o, l, h)
    ensures failed <==> !(Builds(dev, ObjectStages(mode)) && Builds(dev, LightStages))
    ensures forall i :: 0 <= i < |shaders| ==> shaders[i].dev == dev && shaders[i].Valid()
    ensures forall i, j :: 0 <= i < j < |shaders| ==> shaders[i] != shaders[j]
    ensures Attached(dev.gl, h.uid) == Attached(old(dev.gl), h.uid)
    ensures dev.gl.program == old(dev.gl.program) && dev.gl.uniforms == old(dev.gl.uniforms)
    ensures Textures.LeasesKept(old(dev.live), dev.live)
  {
    var main := ObjectStages(mode) + LightStages;
    assert main[..2] == ObjectStages(mode);
    assert main[2..] == LightStages;
    shaders := MakeStages(dev, main, [VertexShader, FragmentShader, VertexShader, FragmentShader]);
    TrioStays(dev, c, o, l, h);
    failed := LinkMain(o, l, shaders, main);
  }

  /**
   * `m_fail = m_fail || vs.fail() || gs.fail() || fs.fail() || !help_prog.link(vs, fs, gs)`:
   * the helper program is linked only if nothing failed before.
   */
  method LinkHelper(h: Shaders.Program, shaders: seq<Shaders.Shader>, ghost paths: seq<string>, failedBefore: bool)
    returns (failed: bool)
    requires h.dev.Valid() && h.Valid() && |shaders| == |paths| == 3
    requires Attached(h.dev.gl, h.uid) == []
    requires forall i :: 0 <= i < 3 ==> (shaders[i].valid <==> Compiles(h.dev, paths[i]))
    requires forall i :: 0 <= i < 3 && paths[i] in h.dev.files ==>
               shaders[i].uid in h.dev.gl.sources && h.dev.gl.sources[shaders[i].uid] == h.dev.files[paths[i]]
    modifies h.dev`trace, h.dev`gl, h.dev`log
    ensures h.dev.Valid() && h.Valid()
    ensures failed <==> failedBefore || !Builds(h.dev, paths)
    ensures h.dev.gl == old(h.dev.gl).(attached := h.dev.gl.attached)
    ensures h.dev.live == old(h.dev.live) && h.dev.allocations == old(h.dev.allocations)
  {
    failed := failedBefore || shaders[0].Fail() || shaders[2].Fail() || shaders[1].Fail();
    if !failed {
      var ok := LinkStages(h, shaders, paths);
      failed := !ok;
    }
  }

  /** The default uniforms of the object and light programs. */
  method WriteDefaults(dev: Device, c: Shaders.ActiveCell, o: Shaders.Program, l: Shaders.Program, h: Shaders.Program)
    requires dev.Valid() && Trio(dev, c, o, l, h)
    modifies o`cache, l`cache, c, dev`trace, dev`gl, dev`log
    ensures dev.Valid() && Trio(dev, c, o, l, h)
    ensures dev.gl.uniforms == WriteAll(WriteAll(old(dev.gl.uniforms), o.uid, dev.locate, ObjectDefaultNames, ObjectDefaultValues),
                                        l.uid, dev.locate, LightDefaultNames, LightDefaultValues)
    ensures dev.gl == old(dev.gl).(program := l.uid, uniforms := dev.gl.uniforms)
    ensures dev.live == old(dev.live)
  {
    SetAll(o, ObjectDefaultNames, ObjectDefaultValues);
    SetAll(l, LightDefaultNames, LightDefaultValues);
  }

  /**
   * The shadow-mode tail of the constructor: the helper stages are created,
   * the helper program is linked unless an earlier step failed, the sampler
   * uniforms are written, and the helper shaders are destroyed.
   */
  method BuildHelper(dev: Device, c: Shaders.ActiveCell, o: Shaders.Program, l: Shaders.Program, h: Shaders.Program,
                     mode: Mode, failedBefore: bool) returns (failed: bool)
    requires dev.Valid() && Trio(dev, c, o, l, h) && Attached(dev.gl, h.uid) == []
    modifies o`cache, c, dev`nextName, dev`live, dev`trace, dev`gl, dev`log
    ensures dev.Valid() && Trio(dev, c, o, l, h)
    ensures failed <==> failedBefore || (mode != NoShadow && !Builds(dev, HelperStages(mode)))
    ensures dev.gl.uniforms == WriteAll(old(dev.gl.uniforms), o.uid, dev.locate, SamplerNames(mode), SamplerValues(mode))
    ensures mode != NoShadow ==> dev.gl.program == o.uid
    ensures mode == NoShadow ==> dev.gl == old(dev.gl) && dev.live == old(dev.live)
    ensures KeptButShaders(old(dev.live), dev.live)
  {
    failed := failedBefore;
    if mode != NoShadow {
      var helper := HelperStages(mode);
      var hs := MakeStages(dev, helper, [VertexShader, FragmentShader, GeometryShader]);
      TrioStays(dev, c, o, l, h);
      failed := LinkHelper(h, hs, helper, failed);
      SetAll(o, SamplerNames(mode), SamplerValues(mode));
      label written:
      ReleaseStages(dev, hs);
      TrioStays@written(dev, c, o, l, h);
    }
  }

  /**
   * The offscreen target of a shadow mode, created right after the main
   * program is linked: the depth cube map of normal-shadow mode or the
   * reflective shadow map; the empty members are kept otherwise.
   */
  method MakeTargets(dev: Device, mode: Mode, d0: Textures.FrameBuffer, r0: Textures.FullFrameBuffer)
    returns (d: Textures.FrameBuffer, r: Textures.FullFrameBuffer)
    requires dev.Valid() && d0.dev == dev && d0.tex.dev == dev && r0.dev == dev
    requires r0.normal.dev == dev && r0.depth.dev == dev && r0.color.dev == dev && r0.pos.dev == dev
    modifies dev`nextName, dev`live, dev`allocations, dev`trace, dev`gl, dev`log
    ensures dev.Valid() && d.dev == dev && d.tex.dev == dev && r.dev == dev
    ensures r.normal.dev == dev && r.depth.dev == dev && r.color.dev == dev && r.pos.dev == dev
    ensures mode == NormalShadow ==> fresh(d) && d.Valid() && r == r0
    ensures mode == ReflectiveShadow ==> fresh(r) && r.Valid() && d == d0
    ensures mode == NoShadow ==> d == d0 && r == r0 && dev.trace == old(dev.trace) && dev.gl == old(dev.gl)
    ensures Textures.ProgramsKept(old(dev.gl), dev.gl) && Textures.LeasesKept(old(dev.live), dev.live)
    ensures dev.log == old(dev.log)
  {
    d, r := d0, r0;
    if mode == NormalShadow {
      d := new Textures.FrameBuffer(dev, ShadowWidth, ShadowHeight, null, FloatPixels);
    } else if mode == ReflectiveShadow {
      r := new Textures.FullFrameBuffer(dev, ShadowWidth, ShadowHeight);
    }
  }

  /**
   * The first block of the constructor: the program members and the empty
   * offscreen targets are default-constructed, the main stages are built
   * and linked, the target of the mode is created while those stages are
   * still alive, and the stages are destroyed at the end of their block.
   */
  method Prepare(dev: Device, mode: Mode)
    returns (c: Shaders.ActiveCell, o: Shaders.Program, l: Shaders.Program, h: Shaders.Program,
             d: Textures.FrameBuffer, r: Textures.FullFrameBuffer, failed: bool)
    requires dev.Valid()
    modifies dev`nextName, dev`live, dev`allocations, dev`trace, dev`gl, dev`log
    ensures dev.Valid() && fresh(c) && fresh(o) && fresh(l) && fresh(h) && Trio(dev, c, o, l, h)
    ensures d.dev == dev && d.tex.dev == dev && r.dev == dev
    ensures r.normal.dev == dev && r.depth.dev == dev && r.color.dev == dev && r.pos.dev == dev
    ensures failed <==> !(Builds(dev, ObjectStages(mode)) && Builds(dev, LightStages))
    ensures Attached(dev.gl, h.uid) == []
    ensures dev.gl.program == old(dev.gl.program) && dev.gl.uniforms == old(dev.gl.uniforms)
    ensures KeptButShaders(old(dev.live), dev.live)
  {
    c, o, l, h := NewPrograms(dev);
    d := new Textures.FrameBuffer.Empty(dev);
    r := new Textures.FullFrameBuffer.Empty(dev);
    failed, d, r := MainBlock(dev, c, o, l, h, mode, d, r);
  }

  /** The main stages' block: built and linked, the target created, the stages destroyed. */
  method MainBlock(dev: Device, c: Shaders.ActiveCell, o: Shaders.Program, l: Shaders.Program, h: Shaders.Program,
                   mode: Mode, d0: Textures.FrameBuffer, r0: Textures.FullFrameBuffer)
    returns (failed: bool, d: Textures.FrameBuffer, r: Textures.FullFrameBuffer)
    requires dev.Valid() && Trio(dev, c, o, l, h)
    requires Attached(dev.gl, o.uid) == [] && Attached(dev.gl, l.uid) == [] && Attached(dev.gl, h.uid) == []
    requires d0.dev == dev && d0.tex.dev == dev && r0.dev == dev
    requires r0.normal.dev == dev && r0.depth.dev == dev && r0.color.dev == dev && r0.pos.dev == dev
    modifies dev`nextName, dev`live, dev`allocations, dev`trace, dev`gl, dev`log
    ensures dev.Valid() && Trio(dev, c, o, l, h)
    ensures d.dev == dev && d.tex.dev == dev && r.dev == dev
    ensures r.normal.dev == dev && r.depth.dev == dev && r.color.dev == dev && r.pos.dev == dev
    ensures failed <==> !(Builds(dev, ObjectStages(mode)) && Builds(dev, LightStages))
    ensures Attached(dev.gl, h.uid) == []
    ensures dev.gl.program == old(dev.gl.program) && dev.gl.uniforms == old(dev.gl.uniforms)
    ensures KeptButShaders(old(dev.live), dev.live)
  {
    var sh;
    failed, sh := BuildMain(dev, c, o, l, h, mode);
    label built:
    d, r := MakeTargets(dev, mode, d0, r0);
    TrioStays@built(dev, c, o, l, h);
    label targets:
    ReleaseStages(dev, sh);
    TrioStays@targets(dev, c, o, l, h);
  }

  /**
   * The device work of the constructor, in source order: the first block of
   * `Prepare`, the default uniforms, and the helper program of a shadow mode.
   */
  method Assemble(dev: Device, mode: Mode)
    returns (c: Shaders.ActiveCell, o: Shaders.Program, l: Shaders.Program, h: Shaders.Program,
             d: Textures.FrameBuffer, r: Textures.FullFrameBuffer, failed: bool)
    requires dev.Valid()
    modifies dev`nextName, dev`live, dev`allocations, dev`trace, dev`gl, dev`log
    ensures dev.Valid() && fresh(c) && fresh(o) && fresh(l) && fresh(h) && Trio(dev, c, o, l, h)
    ensures d.dev == dev && d.tex.dev == dev && r.dev == dev
    ensures r.normal.dev == dev && r.depth.dev == dev && r.color.dev == dev && r.pos.dev == dev
    ensures failed <==> FailsToBuild(dev, mode)
    ensures dev.gl.uniforms == DefaultUniforms(old(dev.gl.uniforms), dev.locate, mode, o.uid, l.uid)
    ensures dev.gl.program == if mode == NoShadow then l.uid else o.uid
    ensures KeptButShaders(old(dev.live), dev.live)
  {
    c, o, l, h, d, r, failed := Prepare(dev, mode);
    WriteDefaults(dev, c, o, l, h);
    failed := BuildHelper(dev, c, o, l, h, mode, failed);
  }

  /**
   * `World(width, height, mode)`: builds the programs of `mode` (the helper
   * program only in the shadow modes), records whether any of them failed,
   * creates the offscreen target of the mode, and writes the default
   * uniforms. The scene starts empty, and the object program is the bound
   * one unless no helper program was built.
   */
  method NewWorld(dev: Device, mode: Mode) returns (w: World)
    requires dev.Valid()
    modifies dev`nextName, dev`live, dev`allocations, dev`trace, dev`gl, dev`log
    ensures fresh(w) && w.Valid() && w.dev == dev && w.mode == mode
    ensures w.failed <==> FailsToBuild(dev, mode)
    ensures w.objects == [] && w.pointLights == [] && w.spotLights == [] && w.textures == map[]
    ensures fresh(w.objectProg) && fresh(w.lightProg) && fresh(w.helpProg)
    ensures dev.gl.uniforms == DefaultUniforms(old(dev.gl.uniforms), dev.locate, mode, w.objectProg.uid, w.lightProg.uid)
    ensures dev.gl.program == if mode == NoShadow then w.lightProg.uid else w.objectProg.uid
    ensures KeptButShaders(old(dev.live), dev.live)
  {
    var c, o, l, h, d, r, f := Assemble(dev, mode);
    DefaultCounts(old(dev.gl.uniforms), dev.locate, mode, o.uid, l.uid);
    w := new World(dev, mode, c, o, l, h, d, r, f);
  }

  /** The offscreen targets belong to the device. */
  predicate TargetsOf(dev: Device, d: Textures.FrameBuffer, r: Textures.FullFrameBuffer) {
    d.dev == dev && d.tex.dev == dev && r.dev == dev &&
    r.normal.dev == dev && r.depth.dev == dev && r.color.dev == dev && r.pos.dev == dev
  }

  /**
   * A scene on `dev`: the three programs are valid, the targets belong to
   * the device, every registered mesh is drawable and every cached texture
   * holds its name.
   */
  ghost predicate Scene(dev: Device, c: Shaders.ActiveCell, o: Shaders.Program, l: Shaders.Program, h: Shaders.Program,
                        d: Textures.FrameBuffer, r: Textures.FullFrameBuffer, objects: seq<Meshes.Mesh>,
                        pointLights: seq<Meshes.Mesh>, spotLights: seq<Meshes.Mesh>, textures: map<string, Textures.Texture>)
    reads dev`nextName, dev`live, dev`gl, c, o, l, h, objects, pointLights, spotLights, textures.Values
  {
    dev.Valid() && Trio(dev, c, o, l, h) && TargetsOf(dev, d, r) &&
    Drawable(dev, objects) && Drawable(dev, pointLights) && Drawable(dev, spotLights) && Cached(dev, textures)
  }

  /** Entry `k` of the uniform store is the same in `u0` and `u1`. */
  ghost predicate Kept(u0: map<(Handle, string), Value>, u1: map<(Handle, string), Value>, k: (Handle, string)) {
    (k in u1 <==> k in u0) && (k in u0 ==> u1[k] == u0[k])
  }

  /** `point_light_num` and `spot_light_num` of the object program read `points` and `spots`. */
  ghost predicate LightCounts(u: map<(Handle, string), Value>, locate: (Handle, string) -> int, o: Handle, points: nat, spots: nat) {
    Stored(u, locate(o, "point_light_num"), o, "point_light_num", IntV(points)) &&
    Stored(u, locate(o, "spot_light_num"), o, "spot_light_num", IntV(spots))
  }

  /** The constructor's defaults set both light counts of the object program to 0. */
  lemma DefaultCounts(u: map<(Handle, string), Value>, locate: (Handle, string) -> int, mode: Mode, o: Handle, l: Handle)
    requires o != l
    ensures LightCounts(DefaultUniforms(u, locate, mode, o, l), locate, o, 0, 0)
  {
    var u1 := WriteAll(u, o, locate, ObjectDefaultNames, ObjectDefaultValues);
    var u2 := WriteAll(u1, l, locate, LightDefaultNames, LightDefaultValues);
    assert Distinct(ObjectDefaultNames);
    assert ObjectDefaultNames[3] == "point_light_num" && ObjectDefaultNames[4] == "spot_light_num";
    WriteAllStores(u, o, locate, ObjectDefaultNames, ObjectDefaultValues, 3);
    WriteAllStores(u, o, locate, ObjectDefaultNames, ObjectDefaultValues, 4);
    WriteAllKeeps(u1, l, locate, LightDefaultNames, LightDefaultValues, (o, "point_light_num"));
    WriteAllKeeps(u1, l, locate, LightDefaultNames, LightDefaultValues, (o, "spot_light_num"));
    WriteAllKeeps(u2, o, locate, SamplerNames(mode), SamplerValues(mode), (o, "point_light_num"));
    WriteAllKeeps(u2, o, locate, SamplerNames(mode), SamplerValues(mode), (o, "spot_light_num"));
  }

  /**
   * The uniforms `build_point_light` writes never include `spot_light_num`,
   * those of `build_spot_light` never `point_light_num`, and neither count
   * is among the helper program's mirrored light, the directional block or
   * what a run of `mainloop` writes.
   */
  lemma CountsApart(n: nat)
    ensures "spot_light_num" !in PointLightNames(n) && "point_light_num" !in SpotLightNames(n)
    ensures "spot_light_num" !in MirrorNames && "point_light_num" !in DirNames && "spot_light_num" !in DirNames
    ensures "point_light_num" !in ShadowNames() + FrameNames && "spot_light_num" !in ShadowNames() + FrameNames
  {
    forall i | 0 <= i < 7
      ensures PointLightNames(n)[i] != "spot_light_num" && SpotLightNames(n)[i] != "point_light_num"
    {
      assert PointLightNames(n)[i] == Slot("point_lights", n) + PointFields[i];
      assert PointLightNames(n)[i][0] == 'p';
      assert SpotLightNames(n)[i] == Slot("spot_lights", n) + SpotFields[i];
      assert SpotLightNames(n)[i][0] == 's';
    }
    forall name | name in ShadowMatrixNames()
      ensures name != "point_light_num" && name != "spot_light_num"
    {
      var i :| 0 <= i < 6 && ShadowMatrixNames()[i] == name;
      assert name[1] == 'h';
    }
  }

  /** Writing point-light slot `n` leaves the object program's spot-light count alone. */
  lemma PointLightKeepsSpots(u: map<(Handle, string), Value>, locate: (Handle, string) -> int, mode: Mode,
                             o: Handle, h: Handle, light: PointLight, n: nat)
    ensures Kept(u, PointLightUniforms(u, locate, mode, o, h, light, n), (o, "spot_light_num"))
  {
    var u1 := WriteAll(u, o, locate, PointLightNames(n), PointLightValues(light, n));
    CountsApart(n);
    WriteAllKeeps(u, o, locate, PointLightNames(n), PointLightValues(light, n), (o, "spot_light_num"));
    WriteAllKeeps(u1, h, locate, MirrorNames, MirrorValues(light), (o, "spot_light_num"));
  }

  /** Writing spot-light slot `n` leaves the object program's point-light count alone. */
  lemma SpotLightKeepsPoints(u: map<(Handle, string), Value>, locate: (Handle, string) -> int, o: Handle, light: SpotLight, n: nat)
    ensures Kept(u, WriteAll(u, o, locate, SpotLightNames(n), SpotLightValues(light, n)), (o, "point_light_num"))
  {
    CountsApart(n);
    WriteAllKeeps(u, o, locate, SpotLightNames(n), SpotLightValues(light, n), (o, "point_light_num"));
  }

  /** Writing the directional light leaves both light counts as they were. */
  lemma DirKeepsCounts(u: map<(Handle, string), Value>, locate: (Handle, string) -> int, o: Handle, light: DirLight, points: nat, spots: nat)
    requires LightCounts(u, locate, o, points, spots)
    ensures LightCounts(WriteAll(u, o, locate, DirNames, DirLightValues(light)), locate, o, points, spots)
  {
    CountsApart(0);
    WriteAllKeeps(u, o, locate, DirNames, DirLightValues(light), (o, "point_light_num"));
    WriteAllKeeps(u, o, locate, DirNames, DirLightValues(light), (o, "spot_light_num"));
  }

  /** A drawable list stays drawable when a valid mesh of the device, with textures of the device, is appended. */
  lemma DrawableAppend(dev: Device, ms: seq<Meshes.Mesh>, m: Meshes.Mesh)
    requires Drawable(dev, ms) && m.dev == dev && m.Valid()
    requires (m.diffuse != null ==> m.diffuse.dev == dev) && (m.specular != null ==> m.specular.dev == dev)
    ensures Drawable(dev, ms + [m])
  {
    assert forall i :: 0 <= i < |ms| ==> (ms + [m])[i] == ms[i];
  }

  /**
   * The `emplace_back(Mesh(...))` step of the `build_*` operations, seen
   * from a scene: the new mesh is valid, and the scene stays valid with the
   * mesh appended to any one of its registries.
   */
  method AddMesh(dev: Device, c: Shaders.ActiveCell, o: Shaders.Program, l: Shaders.Program, h: Shaders.Program,
                 d: Textures.FrameBuffer, r: Textures.FullFrameBuffer, objects: seq<Meshes.Mesh>,
                 pointLights: seq<Meshes.Mesh>, spotLights: seq<Meshes.Mesh>, textures: map<string, Textures.Texture>,
                 vertices: seq<Meshes.Vertex>, indices: seq<nat>, diffuse: Textures.Texture?, specular: Textures.Texture?,
                 model: Transform) returns (m: Meshes.Mesh)
    requires Scene(dev, c, o, l, h, d, r, objects, pointLights, spotLights, textures)
    requires (diffuse != null ==> diffuse.dev == dev) && (specular != null ==> specular.dev == dev)
    modifies dev`nextName, dev`live, dev`allocations, dev`trace, dev`gl
    ensures Scene(dev, c, o, l, h, d, r, objects + [m], pointLights, spotLights, textures)
    ensures Scene(dev, c, o, l, h, d, r, objects, pointLights + [m], spotLights, textures)
    ensures Scene(dev, c, o, l, h, d, r, objects, pointLights, spotLights + [m], textures)
    ensures fresh(m) && m.dev == dev && m.Valid()
    ensures m.diffuse == diffuse && m.specular == specular && m.model == model && m.indiceNum == |indices|
    ensures m.vertices == vertices && m.indices == indices
    ensures dev.gl.program == old(dev.gl.program) && dev.gl.uniforms == old(dev.gl.uniforms)
  {
    label before:
    m := Emplace(dev, vertices, indices, diffuse, specular, model);
    TrioStays@before(dev, c, o, l, h);
    DrawableKept@before(dev, objects);
    DrawableKept@before(dev, pointLights);
    DrawableKept@before(dev, spotLights);
    CachedKept@before(dev, textures);
    DrawableAppend(dev, objects, m);
    DrawableAppend(dev, pointLights, m);
    DrawableAppend(dev, spotLights, m);
  }

  /** The miss path of `build_texture` seen from a scene: the scene stays valid with the new entry cached. */
  method CacheMiss(dev: Device, c: Shaders.ActiveCell, o: Shaders.Program, l: Shaders.Program, h: Shaders.Program,
                   d: Textures.FrameBuffer, r: Textures.FullFrameBuffer, objects: seq<Meshes.Mesh>,
                   pointLights: seq<Meshes.Mesh>, spotLights: seq<Meshes.Mesh>, textures: map<string, Textures.Texture>,
                   path: string) returns (entry: Textures.Texture)
    requires Scene(dev, c, o, l, h, d, r, objects, pointLights, spotLights, textures)
    modifies dev`nextName, dev`live, dev`allocations, dev`trace, dev`gl, dev`log
    ensures Scene(dev, c, o, l, h, d, r, objects, pointLights, spotLights, textures[path := entry])
    ensures fresh(entry) && entry.dev == dev
    ensures entry.valid <==> old(dev.allocations) !in dev.refused
    ensures dev.trace == old(dev.trace) + Textures.CtorCmds(Texture2D, entry.uid, Repeat, LinearMipmapLinear, Linear)
                                        + Textures.LoadCmds(dev.images, path, entry.uid, true)
    ensures dev.log == old(dev.log) + (if path in dev.images then [] else [TextureLoadFailed(path)])
    ensures Textures.LeasesKept(old(dev.live), dev.live) && Textures.ProgramsKept(old(dev.gl), dev.gl)
  {
    label before:
    entry := LoadTexture(dev, path);
    TrioStays@before(dev, c, o, l, h);
    DrawableKept@before(dev, objects);
    DrawableKept@before(dev, pointLights);
    DrawableKept@before(dev, spotLights);
    CachedKept@before(dev, textures);
  }

  /** `SetAll` on one of the scene's programs keeps the scene. */
  method SceneSetAll(dev: Device, c: Shaders.ActiveCell, o: Shaders.Program, l: Shaders.Program, h: Shaders.Program,
                     d: Textures.FrameBuffer, r: Textures.FullFrameBuffer, objects: seq<Meshes.Mesh>,
                     pointLights: seq<Meshes.Mesh>, spotLights: seq<Meshes.Mesh>, textures: map<string, Textures.Texture>,
                     p: Shaders.Program, names: seq<string>, values: seq<Value>)
    requires Scene(dev, c, o, l, h, d, r, objects, pointLights, spotLights, textures)
    requires (p == o || p == h) && |names| == |values| && names != []
    modifies p`cache, c, dev`trace, dev`gl, dev`log
    ensures Scene(dev, c, o, l, h, d, r, objects, pointLights, spotLights, textures)
    ensures dev.gl.uniforms == WriteAll(old(dev.gl.uniforms), p.uid, dev.locate, names, values) && dev.gl.program == p.uid
  {
    SetAll(p, names, values);
  }

  /** The uniform writes of `build_point_light` for slot `n`. */
  method SetPointLight(dev: Device, c: Shaders.ActiveCell, o: Shaders.Program, l: Shaders.Program, h: Shaders.Program,
                       d: Textures.FrameBuffer, r: Textures.FullFrameBuffer, objects: seq<Meshes.Mesh>,
                       pointLights: seq<Meshes.Mesh>, spotLights: seq<Meshes.Mesh>, textures: map<string, Textures.Texture>,
                       mode: Mode, light: PointLight, n: nat)
    requires Scene(dev, c, o, l, h, d, r, objects, pointLights, spotLights, textures)
    modifies o`cache, h`cache, c, dev`trace, dev`gl, dev`log
    ensures Scene(dev, c, o, l, h, d, r, objects, pointLights, spotLights, textures)
    ensures dev.gl.uniforms == PointLightUniforms(old(dev.gl.uniforms), dev.locate, mode, o.uid, h.uid, light, n)
    ensures Stored(dev.gl.uniforms, dev.locate(o.uid, "point_light_num"), o.uid, "point_light_num", IntV(n + 1))
    ensures Kept(old(dev.gl.uniforms), dev.gl.uniforms, (o.uid, "spot_light_num"))
    ensures dev.gl.program == if mode == ReflectiveShadow then h.uid else o.uid
  {
    SceneSetAll(dev, c, o, l, h, d, r, objects, pointLights, spotLights, textures, o, PointLightNames(n), PointLightValues(light, n));
    if mode == ReflectiveShadow {
      SceneSetAll(dev, c, o, l, h, d, r, objects, pointLights, spotLights, textures, h, MirrorNames, MirrorValues(light));
    }
    PointLightStored(old(dev.gl.uniforms), dev.locate, mode, o.uid, h.uid, light, n, 7);
    PointLightKeepsSpots(old(dev.gl.uniforms), dev.locate, mode, o.uid, h.uid, light, n);
  }

  /** The uniform writes of `build_spot_light` for slot `n`. */
  method SetSpotLight(dev: Device, c: Shaders.ActiveCell, o: Shaders.Program, l: Shaders.Program, h: Shaders.Program,
                      d: Textures.FrameBuffer, r: Textures.FullFrameBuffer, objects: seq<Meshes.Mesh>,
                      pointLights: seq<Meshes.Mesh>, spotLights: seq<Meshes.Mesh>, textures: map<string, Textures.Texture>,
                      light: SpotLight, n: nat)
    requires Scene(dev, c, o, l, h, d, r, objects, pointLights, spotLights, textures)
    modifies o`cache, c, dev`trace, dev`gl, dev`log
    ensures Scene(dev, c, o, l, h, d, r, objects, pointLights, spotLights, textures)
    ensures dev.gl.uniforms == WriteAll(old(dev.gl.uniforms), o.uid, dev.locate, SpotLightNames(n), SpotLightValues(light, n))
    ensures Stored(dev.gl.uniforms, dev.locate(o.uid, "spot_light_num"), o.uid, "spot_light_num", IntV(n + 1))
    ensures Kept(old(dev.gl.uniforms), dev.gl.uniforms, (o.uid, "point_light_num"))
    ensures dev.gl.program == o.uid
  {
    SetAll(o, SpotLightNames(n), SpotLightValues(light, n));
    SpotLightStored(old(dev.gl.uniforms), dev.locate, o.uid, light, n, 7);
    SpotLightKeepsPoints(old(dev.gl.uniforms), dev.locate, o.uid, light, n);
  }

  // ---------------------------------------------------------------------
  // The main loop

  /** The uniforms a frame writes: the view matrix and eye position, and what each draw sets. */
  const FrameNames: set<string> := Meshes.Mesh.DrawNames + {"view", "view_pos"}

  /** The render pass of drawing mesh `m` with program `p`: an empty mesh issues none. */
  function MeshDraw(p: Handle, m: Meshes.Mesh): seq<Cmd>
    reads m
  {
    if m.indiceNum > 0 then [DrawElements(p, m.vao, m.indiceNum)] else []
  }

  /** The render passes of drawing every mesh of `ms` with program `p`, in order. */
  function Draws(p: Handle, ms: seq<Meshes.Mesh>): (r: seq<Cmd>)
    reads ms
  {
    if ms == [] then [] else Draws(p, ms[..|ms| - 1]) + MeshDraw(p, ms[|ms| - 1])
  }

  /** Back to the window after an offscreen pass: default framebuffer, window viewport, full clear. */
  const WindowPasses: seq<Cmd> := [BindFramebuffer(0), Viewport(Width, Height), Clear(ColorAndDepthBits)]

  /**
   * The offscreen part of a frame. A shadow mode renders the objects with
   * the helper program into its target at shadow size, bracketed by the
   * viewport and framebuffer switches; without shadows the window is only
   * cleared to grey.
   */
  function OffscreenPasses(mode: Mode, d: Textures.FrameBuffer, r: Textures.FullFrameBuffer, h: Handle,
                           objects: seq<Meshes.Mesh>): seq<Cmd>
    reads d, r, objects
  {
    match mode
    case NoShadow => [ClearColor, Clear(ColorAndDepthBits)]
    case NormalShadow =>
      [Viewport(ShadowWidth, ShadowHeight), BindFramebuffer(d.fbo), Clear(DepthBit)] + Draws(h, objects) + WindowPasses
    case ReflectiveShadow =>
      [Viewport(ShadowWidth, ShadowHeight), BindFramebuffer(r.fbo), Clear(ColorAndDepthBits)] + Draws(h, objects) + WindowPasses
  }

  /** The on-screen passes of a frame: the objects with the object program, the point-light and then the spot-light markers with the light program, and the buffer swap. */
  function ScreenPasses(o: Handle, l: Handle, objects: seq<Meshes.Mesh>, pointLights: seq<Meshes.Mesh>,
                        spotLights: seq<Meshes.Mesh>): seq<Cmd>
    reads objects, pointLights, spotLights
  {
    Draws(o, objects) + Draws(l, pointLights) + Draws(l, spotLights) + [SwapBuffers]
  }

  /** The passes of one presented frame: the offscreen part, then the on-screen passes. */
  function FramePasses(mode: Mode, d: Textures.FrameBuffer, r: Textures.FullFrameBuffer, o: Handle, l: Handle, h: Handle,
                       objects: seq<Meshes.Mesh>, pointLights: seq<Meshes.Mesh>, spotLights: seq<Meshes.Mesh>): seq<Cmd>
    reads d, r, objects, pointLights, spotLights
  {
    OffscreenPasses(mode, d, r, h, objects) + ScreenPasses(o, l, objects, pointLights, spotLights)
  }

  /** The program a draw of the frame uses, ranked by pass: helper, then object, then light. */
  function Rank(o: Handle, l: Handle, h: Handle, p: Handle): nat {
    if p == h then 0 else if p == o then 1 else 2
  }

  /** Every command of `s` is a draw with program `p`. */
  predicate AllDraws(s: seq<Cmd>, p: Handle) {
    forall i :: 0 <= i < |s| ==> s[i].DrawElements? && s[i].program == p
  }

  /** Every draw in `s` uses program `p`, and `s` neither presents nor polls. */
  predicate QuietDraws(s: seq<Cmd>, p: Handle) {
    forall i :: 0 <= i < |s| ==> s[i] != SwapBuffers && s[i] != PollEvents && (s[i].DrawElements? ==> s[i].program == p)
  }

  /** The passes of a mesh list are draws with the given program, one per mesh with indices. */
  lemma {:induction false} DrawsAreDraws(p: Handle, ms: seq<Meshes.Mesh>)
    ensures AllDraws(Draws(p, ms), p) && |Draws(p, ms)| <= |ms|
  {
    if ms != [] {
      DrawsAreDraws(p, ms[..|ms| - 1]);
    }
  }

  /** The offscreen part draws only with the helper program, and neither presents nor polls. */
  lemma OffscreenQuiet(mode: Mode, d: Textures.FrameBuffer, r: Textures.FullFrameBuffer, h: Handle, objects: seq<Meshes.Mesh>)
    ensures QuietDraws(OffscreenPasses(mode, d, r, h, objects), h)
  {
    if mode != NoShadow {
      var hd := Draws(h, objects);
      DrawsAreDraws(h, objects);
      var off := OffscreenPasses(mode, d, r, h, objects);
      forall i | 0 <= i < |off|
        ensures off[i] != SwapBuffers && off[i] != PollEvents && (off[i].DrawElements? ==> off[i].program == h)
      {
        if 3 <= i < 3 + |hd| {
          assert off[i] == hd[i - 3];
        }
      }
    }
  }

  /**
   * The shape of a frame: it ends with the one buffer swap it holds, polls
   * no events, and its draws are ordered by `Rank`.
   */
  predicate FrameShaped(f: seq<Cmd>, o: Handle, l: Handle, h: Handle) {
    |f| > 0 && f[|f| - 1] == SwapBuffers && multiset(f)[SwapBuffers] == 1 && multiset(f)[PollEvents] == 0 &&
    forall i, j :: 0 <= i < j < |f| && f[i].DrawElements? && f[j].DrawElements? ==>
      Rank(o, l, h, f[i].program) <= Rank(o, l, h, f[j].program)
  }

  /** Pieces laid out pass by pass: quiet helper work, then object draws, then light draws, then one swap. */
  lemma {:induction false} PassOrder(off: seq<Cmd>, a: seq<Cmd>, b: seq<Cmd>, c: seq<Cmd>, o: Handle, l: Handle, h: Handle)
    requires o != l && o != h && l != h
    requires QuietDraws(off, h) && AllDraws(a, o) && AllDraws(b, l) && AllDraws(c, l)
    ensures FrameShaped(off + a + b + c + [SwapBuffers], o, l, h)
  {
    var f := off + a + b + c + [SwapBuffers];
    var n := |off| + |a| + |b| + |c|;
    // the rank of every command before the swap, read off its piece
    forall k | 0 <= k < n && f[k].DrawElements?
      ensures Rank(o, l, h, f[k].program) == if k < |off| then 0 else if k < |off| + |a| then 1 else 2
    {
      if k < |off| {
        assert f[k] == off[k];
      } else if k < |off| + |a| {
        assert f[k] == a[k - |off|];
      } else if k < |off| + |a| + |b| {
        assert f[k] == b[k - |off| - |a|];
      } else {
        assert f[k] == c[k - |off| - |a| - |b|];
      }
    }
    assert f[..n] == off + a + b + c;
    assert SwapBuffers !in off && PollEvents !in off;
    assert SwapBuffers !in multiset(a) && SwapBuffers !in multiset(b) && SwapBuffers !in multiset(c);
    assert PollEvents !in multiset(a) && PollEvents !in multiset(b) && PollEvents !in multiset(c);
  }

  /**
   * A frame presents exactly once, at its end, never polls, and its draws
   * come pass by pass: every helper-program draw precedes every
   * object-program draw, which precedes every light-marker draw.
   */
  lemma FrameShape(mode: Mode, d: Textures.FrameBuffer, r: Textures.FullFrameBuffer, o: Handle, l: Handle, h: Handle,
                   objects: seq<Meshes.Mesh>, pointLights: seq<Meshes.Mesh>, spotLights: seq<Meshes.Mesh>)
    requires o != l && o != h && l != h
    ensures FrameShaped(FramePasses(mode, d, r, o, l, h, objects, pointLights, spotLights), o, l, h)
  {
    var off := OffscreenPasses(mode, d, r, h, objects);
    var a, b, c := Draws(o, objects), Draws(l, pointLights), Draws(l, spotLights);
    OffscreenQuiet(mode, d, r, h, objects);
    DrawsAreDraws(o, objects);
    DrawsAreDraws(l, pointLights);
    DrawsAreDraws(l, spotLights);
    PassOrder(off, a, b, c, o, l, h);
    Regroup3(off, a, b, c, [SwapBuffers]);
    assert ScreenPasses(o, l, objects, pointLights, spotLights) == a + b + c + [SwapBuffers];
  }

  /** `if (times > 0) --times;` */
  function Tick(times: int): int {
    if times > 0 then times - 1 else times
  }

  /** The value of the frame counter at the start of iteration `k`. */
  function Budget(times: int, k: nat): int {
    if k == 0 then times else Tick(Budget(times, k - 1))
  }

  /** The counter counts down to 0 and stays there; a negative counter never changes. */
  lemma {:induction false} BudgetClosed(times: int, k: nat)
    ensures Budget(times, k) == if times < 0 then times else if k <= times then times - k else 0
  {
    if k > 0 {
      BudgetClosed(times, k - 1);
    }
  }

  /** The passes of the first `k` iterations of the loop: a frame whenever the counter is not 0, then an event poll. */
  function LoopPasses(frame: seq<Cmd>, times: int, k: nat): seq<Cmd> {
    if k == 0 then []
    else LoopPasses(frame, times, k - 1) + (if Budget(times, k - 1) != 0 then frame else []) + [PollEvents]
  }

  /** One more iteration appends its passes after those of the earlier ones. */
  lemma LoopStep(p: seq<Cmd>, frame: seq<Cmd>, times: int, k: nat)
    ensures p + LoopPasses(frame, times, k + 1) == p + LoopPasses(frame, times, k) + (if Budget(times, k) != 0 then frame else []) + [PollEvents]
  {
  }

  /** The number of frames `k` iterations present: all of them when `times < 0`, at most `times` otherwise. */
  function Presented(times: int, k: nat): nat {
    if times < 0 then k else if k <= times then k else times
  }

  /** Iteration `k` presents a frame exactly when it adds one to the count of presented frames. */
  lemma TurnPresents(times: int, k: nat)
    ensures Presented(times, k + 1) == Presented(times, k) + (if Budget(times, k) != 0 then 1 else 0)
  {
    BudgetClosed(times, k);
  }

  /** Counting a command in a sequence grown by a piece and one more command. */
  lemma CountGrow(before: seq<Cmd>, piece: seq<Cmd>, last: Cmd, x: Cmd)
    ensures multiset(before + piece + [last])[x] == multiset(before)[x] + multiset(piece)[x] + (if last == x then 1 else 0)
  {
    assert multiset(before + piece + [last]) == multiset(before) + multiset(piece) + multiset{last};
  }

  /** One more iteration adds one buffer swap when it presents a frame and none otherwise. */
  lemma SwapsStep(frame: seq<Cmd>, times: int, k: nat)
    requires multiset(frame)[SwapBuffers] == 1
    ensures multiset(LoopPasses(frame, times, k + 1))[SwapBuffers]
         == multiset(LoopPasses(frame, times, k))[SwapBuffers] + (if Budget(times, k) != 0 then 1 else 0)
  {
    var piece := if Budget(times, k) != 0 then frame else [];
    CountGrow(LoopPasses(frame, times, k), piece, PollEvents, SwapBuffers);
  }

  /** The buffers are swapped once per presented frame. */
  lemma {:induction false} LoopSwaps(frame: seq<Cmd>, times: int, k: nat)
    requires multiset(frame)[SwapBuffers] == 1
    ensures multiset(LoopPasses(frame, times, k))[SwapBuffers] == Presented(times, k)
  {
    if k > 0 {
      var j := k - 1;
      LoopSwaps(frame, times, j);
      TurnPresents(times, j);
      SwapsStep(frame, times, j);
      assert j + 1 == k;
    }
  }

  /** One more iteration adds one event poll. */
  lemma PollsStep(frame: seq<Cmd>, times: int, k: nat)
    requires multiset(frame)[PollEvents] == 0
    ensures multiset(LoopPasses(frame, times, k + 1))[PollEvents] == multiset(LoopPasses(frame, times, k))[PollEvents] + 1
  {
    var piece := if Budget(times, k) != 0 then frame else [];
    CountGrow(LoopPasses(frame, times, k), piece, PollEvents, PollEvents);
  }

  /** Each iteration polls once. */
  lemma {:induction false} LoopPolls(frame: seq<Cmd>, times: int, k: nat)
    requires multiset(frame)[PollEvents] == 0
    ensures multiset(LoopPasses(frame, times, k))[PollEvents] == k
  {
    if k > 0 {
      var j := k - 1;
      LoopPolls(frame, times, j);
      PollsStep(frame, times, j);
      assert j + 1 == k;
    }
  }

  /** The window callbacks `mainloop` installs: the resize callback, and the mouse callback only when `times < 0`. */
  function StartPasses(times: int): seq<Cmd> {
    [SetFramebufferSizeCallback] + (if times < 0 then [SetCursorPosCallback] else [])
  }

  /**
   * Over the whole loop, the buffers are swapped exactly `Presented(times, open)` times:
   * never more than a non-negative `times`, and on every iteration when `times < 0`.
   */
  lemma MainloopPresents(mode: Mode, d: Textures.FrameBuffer, r: Textures.FullFrameBuffer, o: Handle, l: Handle, h: Handle,
                         objects: seq<Meshes.Mesh>, pointLights: seq<Meshes.Mesh>, spotLights: seq<Meshes.Mesh>,
                         times: int, open: nat)
    requires o != l && o != h && l != h
    ensures var p := StartPasses(times) + LoopPasses(FramePasses(mode, d, r, o, l, h, objects, pointLights, spotLights), times, open);
            multiset(p)[SwapBuffers] == Presented(times, open) && multiset(p)[PollEvents] == open
  {
    var f := FramePasses(mode, d, r, o, l, h, objects, pointLights, spotLights);
    FrameShape(mode, d, r, o, l, h, objects, pointLights, spotLights);
    LoopSwaps(f, times, open);
    LoopPolls(f, times, open);
  }

  /** Appending three pieces one after the other appends their concatenation. */
  lemma Regroup(p: seq<Cmd>, a: seq<Cmd>, b: seq<Cmd>, c: seq<Cmd>)
    ensures p + a + b + c == p + (a + b + c)
  {
  }

  /** The pass projection of a trace grows by one command at a time. */
  lemma PassesPush(t: seq<Cmd>, c: Cmd)
    ensures Passes(t + [c]) == Passes(t) + (if PassCmd(c) then [c] else [])
  {
    assert (t + [c])[..|t|] == t;
  }

  /** The program `p` of the trio was just used: the other two are untouched and the cell agrees with the device. */
  twostate lemma TrioSwitched(new dev: Device, new c: Shaders.ActiveCell, new o: Shaders.Program, new l: Shaders.Program,
                              new h: Shaders.Program, new p: Shaders.Program)
    requires old(allocated(dev)) && old(allocated(c)) && old(allocated(o)) && old(allocated(l)) && old(allocated(h))
    requires old(allocated(p))
    requires old(Trio(dev, c, o, l, h)) && (p == o || p == l || p == h) && p.Valid() && dev.live == old(dev.live)
    requires (p == o || unchanged(o)) && (p == l || unchanged(l)) && (p == h || unchanged(h))
    ensures Trio(dev, c, o, l, h)
  {
  }

  /** `it.draw(prog)` for one mesh of the scene: its pass, if any, and the trio stays valid. */
  method DrawOne(dev: Device, c: Shaders.ActiveCell, o: Shaders.Program, l: Shaders.Program, h: Shaders.Program,
                 prog: Shaders.Program, m: Meshes.Mesh)
    requires dev.Valid() && Trio(dev, c, o, l, h) && (prog == o || prog == l || prog == h)
    requires m.dev == dev && m.Valid() && (m.diffuse != null ==> m.diffuse.dev == dev) && (m.specular != null ==> m.specular.dev == dev)
    modifies prog`cache, c, dev`trace, dev`gl, dev`log
    ensures dev.Valid() && Trio(dev, c, o, l, h) && dev.live == old(dev.live)
    ensures Passes(dev.trace) == Passes(old(dev.trace)) + MeshDraw(prog.uid, m)
    ensures Shaders.KeepsOthers(old(dev.gl.uniforms), dev.gl.uniforms, FrameNames)
  {
    m.Draw(prog);
    TrioSwitched(dev, c, o, l, h, prog);
  }

  /** Drawing one more mesh adds its pass at the end. */
  lemma DrawsStep(p: Handle, ms: seq<Meshes.Mesh>, i: nat)
    requires i < |ms|
    ensures Draws(p, ms[..i + 1]) == Draws(p, ms[..i]) + MeshDraw(p, ms[i])
  {
    assert ms[..i + 1][..i] == ms[..i];
  }

  /** One turn of `for (auto& it : ms) it.draw(prog)`: mesh `i` adds its pass to those of the meshes before it. */
  method DrawNext(dev: Device, c: Shaders.ActiveCell, o: Shaders.Program, l: Shaders.Program, h: Shaders.Program,
                  prog: Shaders.Program, ms: seq<Meshes.Mesh>, i: nat, ghost p0: seq<Cmd>)
    requires i < |ms| && dev.Valid() && Trio(dev, c, o, l, h) && (prog == o || prog == l || prog == h) && Drawable(dev, ms)
    requires Passes(dev.trace) == p0 + Draws(prog.uid, ms[..i])
    modifies prog`cache, c, dev`trace, dev`gl, dev`log
    ensures dev.Valid() && Trio(dev, c, o, l, h) && dev.live == old(dev.live)
    ensures Passes(dev.trace) == p0 + Draws(prog.uid, ms[..i + 1])
    ensures Shaders.KeepsOthers(old(dev.gl.uniforms), dev.gl.uniforms, FrameNames)
  {
    var m := ms[i];
    DrawsStep(prog.uid, ms, i);
    ghost var done, step := Draws(prog.uid, ms[..i]), MeshDraw(prog.uid, m);
    ghost var next := Draws(prog.uid, ms[..i + 1]);
    assert next == done + step;
    label before:
    DrawOne(dev, c, o, l, h, prog, m);
    assert Passes(dev.trace) == p0 + done + step;
    assert p0 + done + step == p0 + next;
    DrawsKept@before(prog.uid, ms[..i + 1]);
  }

  /** The passes of meshes whose fields are untouched do not change. */
  twostate lemma DrawsKept(p: Handle, new ms: seq<Meshes.Mesh>)
    requires old(allocated(ms)) && forall j :: 0 <= j < |ms| ==> unchanged(ms[j])
    ensures Draws(p, ms) == old(Draws(p, ms))
  {
  }

  /** `for (auto& it : ms) it.draw(prog);` */
  method DrawAll(dev: Device, c: Shaders.ActiveCell, o: Shaders.Program, l: Shaders.Program, h: Shaders.Program,
                 prog: Shaders.Program, ms: seq<Meshes.Mesh>)
    requires dev.Valid() && Trio(dev, c, o, l, h) && (prog == o || prog == l || prog == h) && Drawable(dev, ms)
    modifies prog`cache, c, dev`trace, dev`gl, dev`log
    ensures dev.Valid() && Trio(dev, c, o, l, h) && dev.live == old(dev.live)
    ensures Passes(dev.trace) == Passes(old(dev.trace)) + Draws(prog.uid, ms)
    ensures Shaders.KeepsOthers(old(dev.gl.uniforms), dev.gl.uniforms, FrameNames)
  {
    ghost var p0, u0 := Passes(dev.trace), dev.gl.uniforms;
    for i := 0 to |ms|
      invariant Trio(dev, c, o, l, h) && Passes(dev.trace) == p0 + Draws(prog.uid, ms[..i])
      invariant Shaders.KeepsOthers(u0, dev.gl.uniforms, FrameNames)
    {
      DrawNext(dev, c, o, l, h, prog, ms, i, p0);
    }
    assert ms[..|ms|] == ms;
  }

  /**
   * The texture a sampler uniform of the shadow modes is meant to see: the
   * depth cube map, or the position, normal, flux (`indirect_map`) and depth
   * cube maps of the reflective shadow map.
   */
  function SamplerTexture(mode: Mode, name: string, d: Textures.FrameBuffer, r: Textures.FullFrameBuffer): Handle
    reads d.tex, r.pos, r.normal, r.color, r.depth
  {
    if name == "depth_map" then (if mode == NormalShadow then d.tex.uid else r.depth.uid)
    else if name == "pos_map" then r.pos.uid
    else if name == "normal_map" then r.normal.uid
    else r.color.uid
  }

  /**
   * `depth.use(14)` or `rsm_buf.use(11)`: the shadow target is bound, and
   * every sampler uniform the constructor set names the unit that now holds
   * the texture it is meant to see.
   */
  method BindShadowMaps(dev: Device, mode: Mode, d: Textures.FrameBuffer, r: Textures.FullFrameBuffer)
    requires dev.Valid() && mode != NoShadow && TargetsOf(dev, d, r)
    modifies dev`trace, dev`gl, dev`log
    ensures dev.gl.program == old(dev.gl.program) && dev.gl.uniforms == old(dev.gl.uniforms) && dev.log == old(dev.log)
    ensures dev.gl.framebuffer == if mode == NormalShadow then d.fbo else r.fbo
    ensures Passes(dev.trace) == Passes(old(dev.trace)) + [BindFramebuffer(if mode == NormalShadow then d.fbo else r.fbo)]
    ensures forall i :: 0 <= i < |SamplerNames(mode)| ==>
              SamplerValues(mode)[i].IntV? && SamplerValues(mode)[i].i >= 0 &&
              SamplerValues(mode)[i].i as nat in dev.gl.units &&
              dev.gl.units[SamplerValues(mode)[i].i as nat] == Binding(CubeMap, SamplerTexture(mode, SamplerNames(mode)[i], d, r))
  {
    if mode == NormalShadow {
      BindDepthMap(dev, d);
    } else {
      BindReflectiveMaps(dev, r);
    }
  }

  /** `depth_fbo.use(14)`: the depth cube map on unit 14. */
  method BindDepthMap(dev: Device, d: Textures.FrameBuffer)
    requires dev.Valid() && d.dev == dev && d.tex.dev == dev
    modifies dev`trace, dev`gl, dev`log
    ensures dev.gl.program == old(dev.gl.program) && dev.gl.uniforms == old(dev.gl.uniforms)
    ensures dev.log == old(dev.log) && dev.gl.framebuffer == d.fbo
    ensures 14 in dev.gl.units && dev.gl.units[14] == Binding(CubeMap, d.tex.uid)
    ensures Passes(dev.trace) == Passes(old(dev.trace)) + [BindFramebuffer(d.fbo)]
  {
    ghost var t0 := dev.trace;
    d.Use(14);
    QuietAppend(t0 + [BindFramebuffer(d.fbo)], Textures.BindCmds(14, CubeMap, d.tex.uid));
    PassesPush(t0, BindFramebuffer(d.fbo));
  }

  /** `rsm_fbo.use(11)`: positions, normals, flux and depth on units 11 to 14. */
  method BindReflectiveMaps(dev: Device, r: Textures.FullFrameBuffer)
    requires dev.Valid() && r.dev == dev && r.normal.dev == dev && r.depth.dev == dev && r.color.dev == dev && r.pos.dev == dev
    modifies dev`trace, dev`gl, dev`log
    ensures dev.gl.program == old(dev.gl.program) && dev.gl.uniforms == old(dev.gl.uniforms)
    ensures dev.log == old(dev.log) && dev.gl.framebuffer == r.fbo
    ensures 11 in dev.gl.units && dev.gl.units[11] == Binding(CubeMap, r.pos.uid)
    ensures 12 in dev.gl.units && dev.gl.units[12] == Binding(CubeMap, r.normal.uid)
    ensures 13 in dev.gl.units && dev.gl.units[13] == Binding(CubeMap, r.color.uid)
    ensures 14 in dev.gl.units && dev.gl.units[14] == Binding(CubeMap, r.depth.uid)
    ensures Passes(dev.trace) == Passes(old(dev.trace)) + [BindFramebuffer(r.fbo)]
  {
    ghost var t0 := dev.trace;
    r.Use(11);
    var binds := Textures.BindCmds(11, CubeMap, r.pos.uid) + Textures.BindCmds(12, CubeMap, r.normal.uid)
                 + Textures.BindCmds(13, CubeMap, r.color.uid) + Textures.BindCmds(14, CubeMap, r.depth.uid);
    assert dev.trace == t0 + [BindFramebuffer(r.fbo)] + binds;
    QuietAppend(t0 + [BindFramebuffer(r.fbo)], binds);
    PassesPush(t0, BindFramebuffer(r.fbo));
  }

  /** The start of a shadow pass: shadow-sized viewport, the shadow target bound, and its clear. */
  method ShadowBegin(dev: Device, mode: Mode, d: Textures.FrameBuffer, r: Textures.FullFrameBuffer)
    requires dev.Valid() && mode != NoShadow && TargetsOf(dev, d, r)
    modifies dev`trace, dev`gl, dev`log
    ensures dev.gl.program == old(dev.gl.program) && dev.gl.uniforms == old(dev.gl.uniforms) && dev.log == old(dev.log)
    ensures Passes(dev.trace) == Passes(old(dev.trace)) +
              [Viewport(ShadowWidth, ShadowHeight), BindFramebuffer(if mode == NormalShadow then d.fbo else r.fbo),
               Clear(if mode == NormalShadow then DepthBit else ColorAndDepthBits)]
  {
    ghost var t0 := dev.trace;
    dev.Issue(Viewport(ShadowWidth, ShadowHeight));
    PassesPush(t0, Viewport(ShadowWidth, ShadowHeight));
    BindShadowMaps(dev, mode, d, r);
    var mask := if mode == NormalShadow then DepthBit else ColorAndDepthBits;
    ghost var t1 := dev.trace;
    dev.Emit(Clear(mask));
    PassesPush(t1, Clear(mask));
  }

  /** The end of a shadow pass: `glBindFramebuffer(GL_FRAMEBUFFER, 0)`, the window viewport, and a full clear. */
  method ToWindow(dev: Device)
    requires dev.Valid()
    modifies dev`trace, dev`gl
    ensures dev.gl == old(dev.gl).(framebuffer := 0, viewport := (Width, Height))
    ensures Passes(dev.trace) == Passes(old(dev.trace)) + WindowPasses
  {
    ghost var t0 := dev.trace;
    dev.Issue(BindFramebuffer(0));
    PassesPush(t0, BindFramebuffer(0));
    dev.Issue(Viewport(Width, Height));
    PassesPush(t0 + [BindFramebuffer(0)], Viewport(Width, Height));
    dev.Emit(Clear(ColorAndDepthBits));
    PassesPush(t0 + [BindFramebuffer(0), Viewport(Width, Height)], Clear(ColorAndDepthBits));
  }

  /** A shadow pass: the shadow target is filled with the objects drawn by the helper program, then the window is back. */
  method ShadowPass(dev: Device, c: Shaders.ActiveCell, o: Shaders.Program, l: Shaders.Program, h: Shaders.Program,
                    d: Textures.FrameBuffer, r: Textures.FullFrameBuffer, objects: seq<Meshes.Mesh>, mode: Mode)
    requires dev.Valid() && Trio(dev, c, o, l, h) && TargetsOf(dev, d, r) && Drawable(dev, objects) && mode != NoShadow
    modifies h`cache, c, dev`trace, dev`gl, dev`log
    ensures dev.Valid() && Trio(dev, c, o, l, h) && dev.live == old(dev.live)
    ensures Passes(dev.trace) == Passes(old(dev.trace)) +
              ([Viewport(ShadowWidth, ShadowHeight), BindFramebuffer(if mode == NormalShadow then d.fbo else r.fbo),
                Clear(if mode == NormalShadow then DepthBit else ColorAndDepthBits)] + old(Draws(h.uid, objects)) + WindowPasses)
    ensures Shaders.KeepsOthers(old(dev.gl.uniforms), dev.gl.uniforms, FrameNames)
  {
    ghost var p0 := Passes(dev.trace);
    label start:
    ShadowBegin(dev, mode, d, r);
    TrioStays@start(dev, c, o, l, h);
    ghost var p1 := Passes(dev.trace);
    DrawAll(dev, c, o, l, h, h, objects);
    ghost var p2 := Passes(dev.trace);
    label drawn:
    ToWindow(dev);
    TrioStays@drawn(dev, c, o, l, h);
    assert Passes(dev.trace) == p2 + WindowPasses == p1 + Draws(h.uid, objects) + WindowPasses;
    Regroup(p0, [Viewport(ShadowWidth, ShadowHeight), BindFramebuffer(if mode == NormalShadow then d.fbo else r.fbo),
                 Clear(if mode == NormalShadow then DepthBit else ColorAndDepthBits)],
            Draws(h.uid, objects), WindowPasses);
  }

  /** The offscreen part of a frame, issued as `OffscreenPasses` says. */
  method Offscreen(dev: Device, c: Shaders.ActiveCell, o: Shaders.Program, l: Shaders.Program, h: Shaders.Program,
                   d: Textures.FrameBuffer, r: Textures.FullFrameBuffer, objects: seq<Meshes.Mesh>, mode: Mode)
    requires dev.Valid() && Trio(dev, c, o, l, h) && TargetsOf(dev, d, r) && Drawable(dev, objects)
    modifies h`cache, c, dev`trace, dev`gl, dev`log
    ensures dev.Valid() && Trio(dev, c, o, l, h) && dev.live == old(dev.live)
    ensures Passes(dev.trace) == Passes(old(dev.trace)) + old(OffscreenPasses(mode, d, r, h.uid, objects))
    ensures Shaders.KeepsOthers(old(dev.gl.uniforms), dev.gl.uniforms, FrameNames)
  {
    if mode == NoShadow {
      ghost var t0 := dev.trace;
      dev.Emit(ClearColor);
      PassesPush(t0, ClearColor);
      dev.Emit(Clear(ColorAndDepthBits));
      PassesPush(t0 + [ClearColor], Clear(ColorAndDepthBits));
    } else {
      ShadowPass(dev, c, o, l, h, d, r, objects, mode);
    }
  }

  /** The object pass: the view uniforms of the object program, then every object drawn with it. */
  method ObjectPass(dev: Device, c: Shaders.ActiveCell, o: Shaders.Program, l: Shaders.Program, h: Shaders.Program,
                    objects: seq<Meshes.Mesh>, view: Transform, eye: Vec3)
    requires dev.Valid() && Trio(dev, c, o, l, h) && Drawable(dev, objects)
    modifies o`cache, c, dev`trace, dev`gl, dev`log
    ensures dev.Valid() && Trio(dev, c, o, l, h) && dev.live == old(dev.live)
    ensures Passes(dev.trace) == Passes(old(dev.trace)) + old(Draws(o.uid, objects))
    ensures Shaders.KeepsOthers(old(dev.gl.uniforms), dev.gl.uniforms, FrameNames)
  {
    ghost var a := Draws(o.uid, objects);
    ghost var u0 := dev.gl.uniforms;
    label start:
    Meshes.SetQuietly(o, "view", Mat4V(view));
    Shaders.WrittenKeepsOthers(u0, o.uid, dev.locate(o.uid, "view"), "view", Mat4V(view), FrameNames);
    ghost var u1 := dev.gl.uniforms;
    Meshes.SetQuietly(o, "view_pos", Vec3V(eye));
    Shaders.WrittenKeepsOthers(u1, o.uid, dev.locate(o.uid, "view_pos"), "view_pos", Vec3V(eye), FrameNames);
    Shaders.KeepsOthersJoin(u0, u1, dev.gl.uniforms, FrameNames, FrameNames);
    TrioSwitched@start(dev, c, o, l, h, o);
    assert Draws(o.uid, objects) == a;
    ghost var u2 := dev.gl.uniforms;
    DrawAll(dev, c, o, l, h, o, objects);
    Shaders.KeepsOthersJoin(u0, u2, dev.gl.uniforms, FrameNames, FrameNames);
  }

  /** The marker pass: the view uniform of the light program, then the point-light and spot-light markers drawn with it. */
  method LightPass(dev: Device, c: Shaders.ActiveCell, o: Shaders.Program, l: Shaders.Program, h: Shaders.Program,
                   pointLights: seq<Meshes.Mesh>, spotLights: seq<Meshes.Mesh>, view: Transform)
    requires dev.Valid() && Trio(dev, c, o, l, h) && Drawable(dev, pointLights) && Drawable(dev, spotLights)
    modifies l`cache, c, dev`trace, dev`gl, dev`log
    ensures dev.Valid() && Trio(dev, c, o, l, h) && dev.live == old(dev.live)
    ensures Passes(dev.trace) == Passes(old(dev.trace)) + old(Draws(l.uid, pointLights)) + old(Draws(l.uid, spotLights))
    ensures Shaders.KeepsOthers(old(dev.gl.uniforms), dev.gl.uniforms, FrameNames)
  {
    ghost var b, e := Draws(l.uid, pointLights), Draws(l.uid, spotLights);
    ghost var u0 := dev.gl.uniforms;
    label start:
    Meshes.SetQuietly(l, "view", Mat4V(view));
    Shaders.WrittenKeepsOthers(u0, l.uid, dev.locate(l.uid, "view"), "view", Mat4V(view), FrameNames);
    TrioSwitched@start(dev, c, o, l, h, l);
    assert Draws(l.uid, pointLights) == b && Draws(l.uid, spotLights) == e;
    ghost var u1 := dev.gl.uniforms;
    DrawMarkers(dev, c, o, l, h, pointLights, spotLights);
    Shaders.KeepsOthersJoin(u0, u1, dev.gl.uniforms, FrameNames, FrameNames);
  }

  /** The point-light markers, then the spot-light markers, with the light program. */
  method DrawMarkers(dev: Device, c: Shaders.ActiveCell, o: Shaders.Program, l: Shaders.Program, h: Shaders.Program,
                     pointLights: seq<Meshes.Mesh>, spotLights: seq<Meshes.Mesh>)
    requires dev.Valid() && Trio(dev, c, o, l, h) && Drawable(dev, pointLights) && Drawable(dev, spotLights)
    modifies l`cache, c, dev`trace, dev`gl, dev`log
    ensures dev.Valid() && Trio(dev, c, o, l, h) && dev.live == old(dev.live)
    ensures Passes(dev.trace) == Passes(old(dev.trace)) + old(Draws(l.uid, pointLights)) + old(Draws(l.uid, spotLights))
    ensures Shaders.KeepsOthers(old(dev.gl.uniforms), dev.gl.uniforms, FrameNames)
  {
    ghost var e := Draws(l.uid, spotLights);
    DrawAll(dev, c, o, l, h, l, pointLights);
    assert Draws(l.uid, spotLights) == e;
    DrawAll(dev, c, o, l, h, l, spotLights);
  }

  lemma Regroup3(p: seq<Cmd>, a: seq<Cmd>, b: seq<Cmd>, c: seq<Cmd>, d: seq<Cmd>)
    ensures p + a + b + c + d == p + (a + b + c + d)
  {
  }

  /** The on-screen part of a frame, issued as `ScreenPasses` says. */
  method Screen(dev: Device, c: Shaders.ActiveCell, o: Shaders.Program, l: Shaders.Program, h: Shaders.Program,
                objects: seq<Meshes.Mesh>, pointLights: seq<Meshes.Mesh>, spotLights: seq<Meshes.Mesh>, view: Transform, eye: Vec3)
    requires dev.Valid() && Trio(dev, c, o, l, h)
    requires Drawable(dev, objects) && Drawable(dev, pointLights) && Drawable(dev, spotLights)
    modifies o`cache, l`cache, c, dev`trace, dev`gl, dev`log
    ensures dev.Valid() && Trio(dev, c, o, l, h) && dev.live == old(dev.live)
    ensures Passes(dev.trace) == Passes(old(dev.trace)) + old(ScreenPasses(o.uid, l.uid, objects, pointLights, spotLights))
    ensures Shaders.KeepsOthers(old(dev.gl.uniforms), dev.gl.uniforms, FrameNames)
  {
    ghost var p0 := Passes(dev.trace);
    ghost var drawn := Draws(o.uid, objects) + Draws(l.uid, pointLights) + Draws(l.uid, spotLights);
    assert ScreenPasses(o.uid, l.uid, objects, pointLights, spotLights) == drawn + [SwapBuffers];
    DrawScene(dev, c, o, l, h, objects, pointLights, spotLights, view, eye);
    ghost var t1 := dev.trace;
    assert Passes(t1) == p0 + drawn;
    dev.Emit(SwapBuffers);
    PassesPush(t1, SwapBuffers);
  }

  /** The object pass followed by the light pass. */
  method DrawScene(dev: Device, c: Shaders.ActiveCell, o: Shaders.Program, l: Shaders.Program, h: Shaders.Program,
               objects: seq<Meshes.Mesh>, pointLights: seq<Meshes.Mesh>, spotLights: seq<Meshes.Mesh>, view: Transform, eye: Vec3)
    requires dev.Valid() && Trio(dev, c, o, l, h)
    requires Drawable(dev, objects) && Drawable(dev, pointLights) && Drawable(dev, spotLights)
    modifies o`cache, l`cache, c, dev`trace, dev`gl, dev`log
    ensures dev.Valid() && Trio(dev, c, o, l, h) && dev.live == old(dev.live)
    ensures Passes(dev.trace) == Passes(old(dev.trace)) + old(Draws(o.uid, objects) + Draws(l.uid, pointLights) + Draws(l.uid, spotLights))
    ensures Shaders.KeepsOthers(old(dev.gl.uniforms), dev.gl.uniforms, FrameNames)
  {
    ghost var p0 := Passes(dev.trace);
    ghost var a, b, e := Draws(o.uid, objects), Draws(l.uid, pointLights), Draws(l.uid, spotLights);
    ObjectPass(dev, c, o, l, h, objects, view, eye);
    assert Draws(l.uid, pointLights) == b && Draws(l.uid, spotLights) == e;
    LightPass(dev, c, o, l, h, pointLights, spotLights, view);
    Regroup(p0, a, b, e);
  }

  /** One presented frame: the offscreen part, then the on-screen part. */
  /** Passes appended in two steps are the passes of both steps appended at once. */
  lemma PassesRegroup(p0: seq<Cmd>, a: seq<Cmd>, b: seq<Cmd>, p2: seq<Cmd>)
    requires p2 == p0 + a + b
    ensures p2 == p0 + (a + b)
  {
  }

  method Frame(dev: Device, c: Shaders.ActiveCell, o: Shaders.Program, l: Shaders.Program, h: Shaders.Program,
               d: Textures.FrameBuffer, r: Textures.FullFrameBuffer, objects: seq<Meshes.Mesh>,
               pointLights: seq<Meshes.Mesh>, spotLights: seq<Meshes.Mesh>, mode: Mode, view: Transform, eye: Vec3)
    requires dev.Valid() && Trio(dev, c, o, l, h) && TargetsOf(dev, d, r)
    requires Drawable(dev, objects) && Drawable(dev, pointLights) && Drawable(dev, spotLights)
    modifies o`cache, l`cache, h`cache, c, dev`trace, dev`gl, dev`log
    ensures dev.Valid() && Trio(dev, c, o, l, h) && dev.live == old(dev.live)
    ensures Passes(dev.trace) == Passes(old(dev.trace)) + old(FramePasses(mode, d, r, o.uid, l.uid, h.uid, objects, pointLights, spotLights))
    ensures Shaders.KeepsOthers(old(dev.gl.uniforms), dev.gl.uniforms, FrameNames)
  {
    ghost var off := OffscreenPasses(mode, d, r, h.uid, objects);
    ghost var sp := ScreenPasses(o.uid, l.uid, objects, pointLights, spotLights);
    assert FramePasses(mode, d, r, o.uid, l.uid, h.uid, objects, pointLights, spotLights) == off + sp;
    ghost var p0, u0 := Passes(dev.trace), dev.gl.uniforms;
    Offscreen(dev, c, o, l, h, d, r, objects, mode);
    ghost var u1 := dev.gl.uniforms;
    assert ScreenPasses(o.uid, l.uid, objects, pointLights, spotLights) == sp;
    Screen(dev, c, o, l, h, objects, pointLights, spotLights, view, eye);
    PassesRegroup(p0, off, sp, Passes(dev.trace));
    Shaders.KeepsOthersJoin(u0, u1, dev.gl.uniforms, FrameNames, FrameNames);
  }

  /** What a frame needs of the scene: a valid device, the three programs, targets on the device and drawable meshes. */
  ghost predicate Ready(dev: Device, c: Shaders.ActiveCell, o: Shaders.Program, l: Shaders.Program, h: Shaders.Program,
                        d: Textures.FrameBuffer, r: Textures.FullFrameBuffer, objects: seq<Meshes.Mesh>,
                        pointLights: seq<Meshes.Mesh>, spotLights: seq<Meshes.Mesh>)
    reads dev`nextName, dev`live, dev`gl, c, o, l, h, objects, pointLights, spotLights
  {
    dev.Valid() && Trio(dev, c, o, l, h) && TargetsOf(dev, d, r) &&
    Drawable(dev, objects) && Drawable(dev, pointLights) && Drawable(dev, spotLights)
  }

  /** `if (times) { ...frame...; if (times > 0) --times; }`: a frame while the counter is not 0, and the counter stepped towards 0. */
  method Present(dev: Device, c: Shaders.ActiveCell, o: Shaders.Program, l: Shaders.Program, h: Shaders.Program,
                 d: Textures.FrameBuffer, r: Textures.FullFrameBuffer, objects: seq<Meshes.Mesh>,
                 pointLights: seq<Meshes.Mesh>, spotLights: seq<Meshes.Mesh>, mode: Mode, view: Transform, eye: Vec3,
                 left: int, ghost fp: seq<Cmd>) returns (next: int)
    requires Ready(dev, c, o, l, h, d, r, objects, pointLights, spotLights)
    requires fp == FramePasses(mode, d, r, o.uid, l.uid, h.uid, objects, pointLights, spotLights)
    modifies o`cache, l`cache, h`cache, c, dev`trace, dev`gl, dev`log
    ensures Ready(dev, c, o, l, h, d, r, objects, pointLights, spotLights) && dev.live == old(dev.live)
    ensures fp == FramePasses(mode, d, r, o.uid, l.uid, h.uid, objects, pointLights, spotLights)
    ensures next == Tick(left) && Passes(dev.trace) == Passes(old(dev.trace)) + (if left != 0 then fp else [])
    ensures Shaders.KeepsOthers(old(dev.gl.uniforms), dev.gl.uniforms, FrameNames)
  {
    next := left;
    label unframed:
    if left != 0 {
      Frame(dev, c, o, l, h, d, r, objects, pointLights, spotLights, mode, view, eye);
      DrawableKept@unframed(dev, objects);
      DrawableKept@unframed(dev, pointLights);
      DrawableKept@unframed(dev, spotLights);
      next := Tick(left);
    }
  }

  /** One turn of the `mainloop` loop: `Present`, then `glfwPollEvents()`. */
  method Turn(dev: Device, c: Shaders.ActiveCell, o: Shaders.Program, l: Shaders.Program, h: Shaders.Program,
              d: Textures.FrameBuffer, r: Textures.FullFrameBuffer, objects: seq<Meshes.Mesh>,
              pointLights: seq<Meshes.Mesh>, spotLights: seq<Meshes.Mesh>, mode: Mode, view: Transform, eye: Vec3,
              left: int, ghost fp: seq<Cmd>) returns (next: int)
    requires Ready(dev, c, o, l, h, d, r, objects, pointLights, spotLights)
    requires fp == FramePasses(mode, d, r, o.uid, l.uid, h.uid, objects, pointLights, spotLights)
    modifies o`cache, l`cache, h`cache, c, dev`trace, dev`gl, dev`log
    ensures Ready(dev, c, o, l, h, d, r, objects, pointLights, spotLights) && dev.live == old(dev.live)
    ensures fp == FramePasses(mode, d, r, o.uid, l.uid, h.uid, objects, pointLights, spotLights)
    ensures next == Tick(left) && Passes(dev.trace) == Passes(old(dev.trace)) + (if left != 0 then fp else []) + [PollEvents]
    ensures Shaders.KeepsOthers(old(dev.gl.uniforms), dev.gl.uniforms, FrameNames)
  {
    next := Present(dev, c, o, l, h, d, r, objects, pointLights, spotLights, mode, view, eye, left, fp);
    ghost var t := dev.trace;
    dev.Emit(PollEvents);
    PassesPush(t, PollEvents);
  }

  /** The body of `mainloop` on a scene: the callbacks and shadow setup, then `open` turns of the loop. */
  method Run(dev: Device, c: Shaders.ActiveCell, o: Shaders.Program, l: Shaders.Program, h: Shaders.Program,
             d: Textures.FrameBuffer, r: Textures.FullFrameBuffer, objects: seq<Meshes.Mesh>,
             pointLights: seq<Meshes.Mesh>, spotLights: seq<Meshes.Mesh>, textures: map<string, Textures.Texture>,
             mode: Mode, view: Transform, eye: Vec3, times: int, open: nat, ghost fp: seq<Cmd>) returns (left: int)
    requires Scene(dev, c, o, l, h, d, r, objects, pointLights, spotLights, textures)
    requires fp == FramePasses(mode, d, r, o.uid, l.uid, h.uid, objects, pointLights, spotLights)
    modifies o`cache, l`cache, h`cache, c, dev`trace, dev`gl, dev`log
    ensures Scene(dev, c, o, l, h, d, r, objects, pointLights, spotLights, textures)
    ensures left == Budget(times, open)
    ensures Passes(dev.trace) == Passes(old(dev.trace)) + StartPasses(times) + LoopPasses(fp, times, open)
    ensures Shaders.KeepsOthers(old(dev.gl.uniforms), dev.gl.uniforms, ShadowNames() + FrameNames)
  {
    ghost var u0 := dev.gl.uniforms;
    StartLoop(dev, c, o, l, h, mode, times);
    if mode != NoShadow {
      ShadowKeepsOthers(u0, dev.locate, o.uid, h.uid, LightPosition(u0, dev.locate, o.uid));
    }
    ghost var u1 := dev.gl.uniforms;
    DrawableKept(dev, objects);
    DrawableKept(dev, pointLights);
    DrawableKept(dev, spotLights);
    left := RunLoop(dev, c, o, l, h, d, r, objects, pointLights, spotLights, mode, view, eye, times, open, fp);
    CachedKept(dev, textures);
    Shaders.KeepsOthersJoin(u0, u1, dev.gl.uniforms, ShadowNames(), FrameNames);
  }

  /**
   * `while (!glfwWindowShouldClose(window)) { ... }` for a window that stays
   * open for `open` turns: the passes of those turns, and the counter as
   * `Budget` gives it.
   */
  method RunLoop(dev: Device, c: Shaders.ActiveCell, o: Shaders.Program, l: Shaders.Program, h: Shaders.Program,
                 d: Textures.FrameBuffer, r: Textures.FullFrameBuffer, objects: seq<Meshes.Mesh>,
                 pointLights: seq<Meshes.Mesh>, spotLights: seq<Meshes.Mesh>, mode: Mode, view: Transform, eye: Vec3,
                 times: int, open: nat, ghost fp: seq<Cmd>) returns (left: int)
    requires Ready(dev, c, o, l, h, d, r, objects, pointLights, spotLights)
    requires fp == FramePasses(mode, d, r, o.uid, l.uid, h.uid, objects, pointLights, spotLights)
    modifies o`cache, l`cache, h`cache, c, dev`trace, dev`gl, dev`log
    ensures Ready(dev, c, o, l, h, d, r, objects, pointLights, spotLights) && dev.live == old(dev.live)
    ensures left == Budget(times, open) && Passes(dev.trace) == Passes(old(dev.trace)) + LoopPasses(fp, times, open)
    ensures Shaders.KeepsOthers(old(dev.gl.uniforms), dev.gl.uniforms, FrameNames)
  {
    ghost var p0, u0 := Passes(dev.trace), dev.gl.uniforms;
    left := times;
    for k := 0 to open
      invariant left == Budget(times, k) && dev.live == old(dev.live)
      invariant Shaders.KeepsOthers(u0, dev.gl.uniforms, FrameNames)
      invariant Ready(dev, c, o, l, h, d, r, objects, pointLights, spotLights)
      invariant fp == FramePasses(mode, d, r, o.uid, l.uid, h.uid, objects, pointLights, spotLights)
      invariant Passes(dev.trace) == p0 + LoopPasses(fp, times, k)
    {
      left := Turn(dev, c, o, l, h, d, r, objects, pointLights, spotLights, mode, view, eye, left, fp);
      LoopStep(p0, fp, times, k);
    }
  }

  /** `glm::perspective(glm::radians(90.0f), 512.0f / 512, 0.1f, far_plane)`. */
  const FarPlane: real := 25.0
  const LightProjection: TransformOp := Perspective(90.0, 1.0, 0.1, FarPlane)

  /** The view direction and up vector of each shadow matrix, in the order of the cube-map faces +X, -X, +Y, -Y, +Z, -Z. */
  const FaceDirs: seq<Vec3> := [Vec3(1.0, 0.0, 0.0), Vec3(-1.0, 0.0, 0.0), Vec3(0.0, 1.0, 0.0),
                                Vec3(0.0, -1.0, 0.0), Vec3(0.0, 0.0, 1.0), Vec3(0.0, 0.0, -1.0)]
  const FaceUps: seq<Vec3> := [Vec3(0.0, -1.0, 0.0), Vec3(0.0, -1.0, 0.0), Vec3(0.0, 0.0, 1.0),
                               Vec3(0.0, 0.0, -1.0), Vec3(0.0, -1.0, 0.0), Vec3(0.0, -1.0, 0.0)]

  /** The unit vector along axis `k` (x, y, z), pointing the positive or the negative way. */
  function SignedAxis(k: nat, positive: bool): Vec3 {
    var s := if positive then 1.0 else -1.0;
    if k == 0 then Vec3(s, 0.0, 0.0) else if k == 1 then Vec3(0.0, s, 0.0) else Vec3(0.0, 0.0, s)
  }

  /**
   * Matrices `2 * k` and `2 * k + 1` look along axis `k`, the positive way
   * and then the negative way, as the cube faces `GL_TEXTURE_CUBE_MAP_POSITIVE_X + i`
   * are ordered; each up vector is a unit axis other than the viewing one,
   * hence orthogonal to the viewing direction.
   */
  lemma CubeFaceOrder(k: nat)
    requires k < 3
    ensures FaceDirs[2 * k] == SignedAxis(k, true) && FaceDirs[2 * k + 1] == SignedAxis(k, false)
    ensures exists a, p :: a < 3 && a != k && FaceUps[2 * k] == SignedAxis(a, p)
    ensures exists a, p :: a < 3 && a != k && FaceUps[2 * k + 1] == SignedAxis(a, p)
  {
    if k == 0 {
      assert FaceUps[0] == SignedAxis(1, false) && FaceUps[1] == SignedAxis(1, false);
    } else if k == 1 {
      assert FaceUps[2] == SignedAxis(2, true) && FaceUps[3] == SignedAxis(2, false);
    } else {
      assert FaceUps[4] == SignedAxis(1, false) && FaceUps[5] == SignedAxis(1, false);
    }
  }

  /** The names `shadow_matrices[i]`, `i` = 0 to 5. */
  function ShadowMatrixNames(): (r: seq<string>)
    ensures |r| == 6
    ensures forall i :: 0 <= i < 6 ==> r[i] == "shadow_matrices[" + Digits(i) + "]"
  {
    seq(6, i requires 0 <= i < 6 => "shadow_matrices[" + Digits(i) + "]")
  }

  function ShadowMatrices(pos: Vec3): (r: seq<Value>)
    ensures |r| == 6
  {
    seq(6, i requires 0 <= i < 6 => Mat4V([LightProjection, LookAt(pos, pos.Plus(FaceDirs[i]), FaceUps[i])]))
  }

  /** The light position `object_prog.get<glm::vec3>("point_lights[0].pos")` reads back from the store. */
  function LightPosition(u: map<(Handle, string), Value>, locate: (Handle, string) -> int, o: Handle): Vec3 {
    var name := "point_lights[0].pos";
    if locate(o, name) >= 0 && (o, name) in u && u[(o, name)].Vec3V? then u[(o, name)].v else Vec3(0.0, 0.0, 0.0)
  }

  /** The store after the shadow set-up of `mainloop`. */
  function ShadowUniforms(u: map<(Handle, string), Value>, locate: (Handle, string) -> int, o: Handle, h: Handle,
                          pos: Vec3): map<(Handle, string), Value> {
    WriteAll(WriteAll(WriteAll(u, h, locate, ShadowMatrixNames() + ["far_plane"], ShadowMatrices(pos) + [FloatV(FarPlane)]),
                      o, locate, ["far_plane"], [FloatV(FarPlane)]),
             h, locate, ["light.pos"], [Vec3V(pos)])
  }

  /** The uniforms the shadow set-up writes. */
  function ShadowNames(): (r: set<string>)
    ensures forall n :: n in ShadowMatrixNames() ==> n in r
    ensures "far_plane" in r && "light.pos" in r
  {
    (set n | n in ShadowMatrixNames()) + {"far_plane", "light.pos"}
  }

  /** The shadow set-up leaves every uniform it does not name as it was. */
  lemma ShadowKeepsOthers(u: map<(Handle, string), Value>, locate: (Handle, string) -> int, o: Handle, h: Handle, pos: Vec3)
    ensures Shaders.KeepsOthers(u, ShadowUniforms(u, locate, o, h, pos), ShadowNames())
  {
    var names := ShadowMatrixNames() + ["far_plane"];
    var u1 := WriteAll(u, h, locate, names, ShadowMatrices(pos) + [FloatV(FarPlane)]);
    var u2 := WriteAll(u1, o, locate, ["far_plane"], [FloatV(FarPlane)]);
    forall k | k in u && k.1 !in ShadowNames()
      ensures k in ShadowUniforms(u, locate, o, h, pos) && ShadowUniforms(u, locate, o, h, pos)[k] == u[k]
    {
      assert k.1 !in names;
      WriteAllKeeps(u, h, locate, names, ShadowMatrices(pos) + [FloatV(FarPlane)], k);
      WriteAllKeeps(u1, o, locate, ["far_plane"], [FloatV(FarPlane)], k);
      WriteAllKeeps(u2, h, locate, ["light.pos"], [Vec3V(pos)], k);
    }
  }

  /**
   * After the set-up, the helper program holds the six face matrices, the
   * far plane and the light position, and the object program the far plane.
   */
  lemma ShadowStored(u: map<(Handle, string), Value>, locate: (Handle, string) -> int, o: Handle, h: Handle, pos: Vec3, i: nat)
    requires o != h && i < 6
    ensures var s := ShadowUniforms(u, locate, o, h, pos);
            var name := "shadow_matrices[" + Digits(i) + "]";
            Stored(s, locate(h, name), h, name,
                   Mat4V([LightProjection, LookAt(pos, pos.Plus(FaceDirs[i]), FaceUps[i])])) &&
            Stored(s, locate(h, "far_plane"), h, "far_plane", FloatV(FarPlane)) &&
            Stored(s, locate(o, "far_plane"), o, "far_plane", FloatV(FarPlane)) &&
            Stored(s, locate(h, "light.pos"), h, "light.pos", Vec3V(pos))
  {
    var names, values := ShadowMatrixNames() + ["far_plane"], ShadowMatrices(pos) + [FloatV(FarPlane)];
    assert Distinct(names) by {
      forall a, b | 0 <= a < b < |names|
        ensures names[a] != names[b]
      {
        if b < 6 {
          assert names[a][16] != names[b][16];
        } else {
          assert |names[a]| != |names[b]|;
        }
      }
    }
    var u1 := WriteAll(u, h, locate, names, values);
    var u2 := WriteAll(u1, o, locate, ["far_plane"], [FloatV(FarPlane)]);
    WriteAllStores(u, h, locate, names, values, i);
    WriteAllStores(u, h, locate, names, values, 6);
    WriteAllStores(u1, o, locate, ["far_plane"], [FloatV(FarPlane)], 0);
    WriteAllStores(u2, h, locate, ["light.pos"], [Vec3V(pos)], 0);
    var name := names[i];
    WriteAllKeeps(u1, o, locate, ["far_plane"], [FloatV(FarPlane)], (h, name));
    WriteAllKeeps(u2, h, locate, ["light.pos"], [Vec3V(pos)], (h, name));
    WriteAllKeeps(u1, o, locate, ["far_plane"], [FloatV(FarPlane)], (h, "far_plane"));
    WriteAllKeeps(u2, h, locate, ["light.pos"], [Vec3V(pos)], (h, "far_plane"));
    WriteAllKeeps(u2, h, locate, ["light.pos"], [Vec3V(pos)], (o, "far_plane"));
  }

  /**
   * The shadow set-up of `mainloop`: the first point light's position is
   * read back from the object program, the six face matrices and the far
   * plane go to the helper program, the far plane to the object program,
   * and the light position to the helper program. No pass is issued.
   */
  method ShadowSetup(dev: Device, c: Shaders.ActiveCell, o: Shaders.Program, l: Shaders.Program, h: Shaders.Program)
    requires dev.Valid() && Trio(dev, c, o, l, h)
    modifies o`cache, h`cache, c, dev`trace, dev`gl, dev`log
    ensures dev.Valid() && Trio(dev, c, o, l, h) && dev.live == old(dev.live)
    ensures Passes(dev.trace) == Passes(old(dev.trace))
    ensures dev.gl.uniforms == ShadowUniforms(old(dev.gl.uniforms), dev.locate, o.uid, h.uid,
                                              LightPosition(old(dev.gl.uniforms), dev.locate, o.uid))
  {
    ghost var t0 := dev.trace;
    label start:
    var read := o.Get("point_lights[0].pos");
    ghost var query := Shaders.LookupCmds(old(o.cache), o.uid, "point_lights[0].pos") + [GetUniform(o.uid, dev.locate(o.uid, "point_lights[0].pos"))];
    assert dev.trace == t0 + query;
    QuietAppend(t0, query);
    TrioSwitched@start(dev, c, o, l, h, o);
    var pos := if read.Some? && read.value.Vec3V? then read.value.v else Vec3(0.0, 0.0, 0.0);
    label matrices:
    SetAll(h, ShadowMatrixNames() + ["far_plane"], ShadowMatrices(pos) + [FloatV(FarPlane)]);
    TrioSwitched@matrices(dev, c, o, l, h, h);
    label farPlane:
    SetAll(o, ["far_plane"], [FloatV(FarPlane)]);
    TrioSwitched@farPlane(dev, c, o, l, h, o);
    label lightPos:
    SetAll(h, ["light.pos"], [Vec3V(pos)]);
    TrioSwitched@lightPos(dev, c, o, l, h, h);
  }

  /** The callbacks and, in a shadow mode, the shadow set-up that precede the loop of `mainloop`. */
  method StartLoop(dev: Device, c: Shaders.ActiveCell, o: Shaders.Program, l: Shaders.Program, h: Shaders.Program,
                   mode: Mode, times: int)
    requires dev.Valid() && Trio(dev, c, o, l, h)
    modifies o`cache, h`cache, c, dev`trace, dev`gl, dev`log
    ensures dev.Valid() && Trio(dev, c, o, l, h) && dev.live == old(dev.live)
    ensures Passes(dev.trace) == Passes(old(dev.trace)) + StartPasses(times)
    ensures mode != NoShadow ==>
              dev.gl.uniforms == ShadowUniforms(old(dev.gl.uniforms), dev.locate, o.uid, h.uid,
                                                LightPosition(old(dev.gl.uniforms), dev.locate, o.uid))
    ensures mode == NoShadow ==> dev.gl.uniforms == old(dev.gl.uniforms)
  {
    Callbacks(dev, c, o, l, h, times);
    if mode != NoShadow {
      ShadowSetup(dev, c, o, l, h);
    }
  }

  /** The two `glfwSet…Callback` calls: the cursor callback only in free-camera mode. */
  method Callbacks(dev: Device, c: Shaders.ActiveCell, o: Shaders.Program, l: Shaders.Program, h: Shaders.Program,
                   times: int)
    requires dev.Valid() && Trio(dev, c, o, l, h)
    modifies dev`trace, dev`gl
    ensures dev.Valid() && Trio(dev, c, o, l, h) && dev.live == old(dev.live)
    ensures Passes(dev.trace) == Passes(old(dev.trace)) + StartPasses(times)
    ensures dev.gl.uniforms == old(dev.gl.uniforms)
  {
    ghost var t0 := dev.trace;
    dev.Emit(SetFramebufferSizeCallback);
    PassesPush(t0, SetFramebufferSizeCallback);
    if times < 0 {
      CursorCallback(dev, c, o, l, h);
    }
  }

  /** `glfwSetCursorPosCallback`: a pass that flips the cursor-callback flag of the binding state. */
  method CursorCallback(dev: Device, c: Shaders.ActiveCell, o: Shaders.Program, l: Shaders.Program, h: Shaders.Program)
    requires dev.Valid() && Trio(dev, c, o, l, h)
    modifies dev`trace, dev`gl
    ensures dev.Valid() && Trio(dev, c, o, l, h) && dev.live == old(dev.live)
    ensures Passes(dev.trace) == Passes(old(dev.trace)) + [SetCursorPosCallback]
    ensures dev.gl.uniforms == old(dev.gl.uniforms)
  {
    ghost var t0 := dev.trace;
    label start:
    dev.Issue(SetCursorPosCallback);
    PassesPush(t0, SetCursorPosCallback);
    TrioStays@start(dev, c, o, l, h);
  }

  /** `t` is the cached texture of path `p`, or null when there is no path. */
  ghost predicate Uses(t: Textures.Texture?, p: Option<string>, textures: map<string, Textures.Texture>) {
    if p.None? then t == null else p.value in textures && t == textures[p.value]
  }

  /**
   * A mesh built from imported mesh `im` with material `mat`: its faces'
   * indices face after face, one vertex per position as the vertex loop
   * builds it, the model's scale transform, and the cached texture of the
   * first diffuse and the first specular path the material names, or none.
   */
  ghost predicate Made(m: Meshes.Mesh, im: Models.ImportedMesh, mat: Models.Material, dir: string, model: Transform,
                       textures: map<string, Textures.Texture>) {
    Models.Complete(im) && m.indices == Models.Flatten(im.faces) && Models.VerticesOf(im, m.vertices) &&
    m.indiceNum == |Models.Flatten(im.faces)| && m.model == model &&
    Uses(m.diffuse, Models.FirstTexture(dir, mat.diffuse), textures) &&
    Uses(m.specular, Models.FirstTexture(dir, mat.specular), textures)
  }

  /** From position `start` on, `objects` holds one mesh built per entry of `done`, in that order. */
  ghost predicate Built(objects: seq<Meshes.Mesh>, start: nat, done: seq<nat>, sc: Models.Imported, dir: string,
                        model: Transform, textures: map<string, Textures.Texture>) {
    |objects| == start + |done| &&
    forall k :: 0 <= k < |done| ==>
      done[k] < |sc.meshes| && sc.meshes[done[k]].material < |sc.materials| &&
      Made(objects[start + k], sc.meshes[done[k]], sc.materials[sc.meshes[done[k]].material], dir, model, textures)
  }

  /** One more mesh built from scene mesh `i` extends the record, and a grown cache keeps every earlier mesh's textures. */
  lemma BuiltGrow(objects: seq<Meshes.Mesh>, m: Meshes.Mesh, start: nat, done: seq<nat>, i: nat, sc: Models.Imported,
                  dir: string, model: Transform, t0: map<string, Textures.Texture>, t1: map<string, Textures.Texture>)
    requires Built(objects, start, done, sc, dir, model, t0) && Extends(t0, t1)
    requires i < |sc.meshes| && sc.meshes[i].material < |sc.materials|
    requires Made(m, sc.meshes[i], sc.materials[sc.meshes[i].material], dir, model, t1)
    ensures Built(objects + [m], start, done + [i], sc, dir, model, t1)
  {
    var o, d := objects + [m], done + [i];
    forall k | 0 <= k < |d|
      ensures d[k] < |sc.meshes| && sc.meshes[d[k]].material < |sc.materials| &&
              Made(o[start + k], sc.meshes[d[k]], sc.materials[sc.meshes[d[k]].material], dir, model, t1)
    {
      if k < |done| {
        assert o[start + k] == objects[start + k] && d[k] == done[k];
      }
    }
  }

  /** The record grows by node mesh `j` of `ms` once its mesh `m` is built. */
  lemma BuiltNext(objects: seq<Meshes.Mesh>, m: Meshes.Mesh, start: nat, done: seq<nat>, ms: seq<nat>, j: nat, sc: Models.Imported,
                  dir: string, model: Transform, t0: map<string, Textures.Texture>, t1: map<string, Textures.Texture>)
    requires j < |ms| && Built(objects, start, done + ms[..j], sc, dir, model, t0) && Extends(t0, t1)
    requires ms[j] < |sc.meshes| && sc.meshes[ms[j]].material < |sc.materials|
    requires Made(m, sc.meshes[ms[j]], sc.materials[sc.meshes[ms[j]].material], dir, model, t1)
    ensures Built(objects + [m], start, done + ms[..j + 1], sc, dir, model, t1)
  {
    BuiltGrow(objects, m, start, done + ms[..j], ms[j], sc, dir, model, t0, t1);
    assert done + ms[..j + 1] == done + ms[..j] + [ms[j]];
  }

  class World {
    const dev: Device
    const mode: Mode
    /** The shared "currently used program" cell of the three programs. */
    const cell: Shaders.ActiveCell
    const objectProg: Shaders.Program
    const lightProg: Shaders.Program
    const helpProg: Shaders.Program
    /** `m_fail`. */
    const failed: bool
    var objects: seq<Meshes.Mesh>
    var pointLights: seq<Meshes.Mesh>
    var spotLights: seq<Meshes.Mesh>
    /** `texture_map`: one texture per path, loaded once. */
    var textures: map<string, Textures.Texture>
    /** The depth cube map of normal-shadow mode (empty otherwise). */
    const depth: Textures.FrameBuffer
    /** The reflective shadow map of reflective-shadow mode (empty otherwise). */
    const rsm: Textures.FullFrameBuffer
    const cameraPos: Vec3
    const cameraFront: Vec3
    const cameraUp: Vec3

    /** The scene is sound: valid programs, targets of the device, drawable meshes and a cache of live textures. */
    ghost predicate Sound()
      reads this, dev`nextName, dev`live, dev`gl, cell, objectProg, lightProg, helpProg
      reads objects, pointLights, spotLights, textures.Values
    {
      Scene(dev, cell, objectProg, lightProg, helpProg, depth, rsm, objects, pointLights, spotLights, textures)
    }

    /** A sound scene whose count uniforms read the sizes of the two light registries. */
    ghost predicate Valid()
      reads this, dev`nextName, dev`live, dev`gl, cell, objectProg, lightProg, helpProg
      reads objects, pointLights, spotLights, textures.Values
    {
      Sound() && LightCounts(dev.gl.uniforms, dev.locate, objectProg.uid, |pointLights|, |spotLights|)
    }

    predicate Fail() {
      failed
    }

    /**
     * The member initialisers of `World`: the parts the constructor body
     * builds on the device are taken as they are, the camera gets its
     * initial pose, and the scene starts empty.
     */
    constructor (dev: Device, mode: Mode, c: Shaders.ActiveCell, o: Shaders.Program, l: Shaders.Program, h: Shaders.Program,
                 d: Textures.FrameBuffer, r: Textures.FullFrameBuffer, f: bool)
      requires dev.Valid() && Trio(dev, c, o, l, h)
      requires d.dev == dev && d.tex.dev == dev && r.dev == dev
      requires r.normal.dev == dev && r.depth.dev == dev && r.color.dev == dev && r.pos.dev == dev
      requires LightCounts(dev.gl.uniforms, dev.locate, o.uid, 0, 0)
      ensures Valid() && this.dev == dev && this.mode == mode && failed == f
      ensures objects == [] && pointLights == [] && spotLights == [] && textures == map[]
      ensures objectProg == o && lightProg == l && helpProg == h && cell == c && depth == d && rsm == r
    {
      this.dev, this.mode := dev, mode;
      cameraPos, cameraFront, cameraUp := Vec3(-0.3, 0.0, 0.0), Vec3(1.0, 0.0, 0.0), Vec3(0.0, 1.0, 0.0);
      objectProg, lightProg, helpProg, cell, failed := o, l, h, c, f;
      depth, rsm := d, r;
      objects, pointLights, spotLights, textures := [], [], [], map[];
    }

    /**
     * `build_texture(path)`: the cached texture for `path`; on a miss a new
     * repeat-wrapped texture is loaded from `path` and moved into the cache,
     * so a path is loaded at most once and a hit issues nothing.
     */
    method BuildTexture(path: string) returns (t: Textures.Texture)
      requires Valid()
      modifies this`textures, dev`nextName, dev`live, dev`allocations, dev`trace, dev`gl, dev`log
      ensures Valid()
      ensures textures == old(textures)[path := t] && t.dev == dev && Extends(old(textures), textures)
      ensures path in old(textures) ==> t == old(textures)[path] && dev.trace == old(dev.trace) && dev.gl == old(dev.gl) &&
                                        dev.log == old(dev.log) && dev.live == old(dev.live) && dev.allocations == old(dev.allocations)
      ensures path !in old(textures) ==> fresh(t) && (t.valid <==> old(dev.allocations) !in dev.refused)
      ensures path !in old(textures) ==>
                dev.trace == old(dev.trace) + Textures.CtorCmds(Texture2D, t.uid, Repeat, LinearMipmapLinear, Linear)
                                            + Textures.LoadCmds(dev.images, path, t.uid, true)
      ensures path !in old(textures) ==> dev.log == old(dev.log) + (if path in dev.images then [] else [TextureLoadFailed(path)])
      ensures Textures.LeasesKept(old(dev.live), dev.live) && Textures.ProgramsKept(old(dev.gl), dev.gl)
    {
      if path !in textures {
        var entry := CacheMiss(dev, cell, objectProg, lightProg, helpProg, depth, rsm, objects, pointLights, spotLights,
                               textures, path);
        textures := textures[path := entry];
      }
      t := textures[path];
    }

    /** The `emplace_back` of `build_point_light`: an untextured marker mesh is appended to the point lights. */
    method AddPointLight(vertices: seq<Meshes.Vertex>, indices: seq<nat>, model: Transform) returns (m: Meshes.Mesh)
      requires Valid()
      modifies this`pointLights, dev`nextName, dev`live, dev`allocations, dev`trace, dev`gl
      ensures Sound() && pointLights == old(pointLights) + [m]
      ensures fresh(m) && m.diffuse == null && m.specular == null && m.model == model && m.indiceNum == |indices|
      ensures m.vertices == vertices && m.indices == indices
      ensures dev.gl.program == old(dev.gl.program) && dev.gl.uniforms == old(dev.gl.uniforms)
    {
      m := AddMesh(dev, cell, objectProg, lightProg, helpProg, depth, rsm, objects, pointLights, spotLights, textures,
                   vertices, indices, null, null, model);
      pointLights := pointLights + [m];
    }

    /** The `emplace_back` of `build_spot_light`: an untextured marker mesh is appended to the spot lights. */
    method AddSpotLight(vertices: seq<Meshes.Vertex>, indices: seq<nat>, model: Transform) returns (m: Meshes.Mesh)
      requires Valid()
      modifies this`spotLights, dev`nextName, dev`live, dev`allocations, dev`trace, dev`gl
      ensures Sound() && spotLights == old(spotLights) + [m]
      ensures fresh(m) && m.diffuse == null && m.specular == null && m.model == model && m.indiceNum == |indices|
      ensures m.vertices == vertices && m.indices == indices
      ensures dev.gl.program == old(dev.gl.program) && dev.gl.uniforms == old(dev.gl.uniforms)
    {
      m := AddMesh(dev, cell, objectProg, lightProg, helpProg, depth, rsm, objects, pointLights, spotLights, textures,
                   vertices, indices, null, null, model);
      spotLights := spotLights + [m];
    }

    /** The `emplace_back` of `build_object`: a textured mesh is appended to the objects. */
    method AddObject(vertices: seq<Meshes.Vertex>, indices: seq<nat>, d: Textures.Texture?, s: Textures.Texture?,
                     model: Transform) returns (m: Meshes.Mesh)
      requires Valid() && (d != null ==> d.dev == dev) && (s != null ==> s.dev == dev)
      modifies this`objects, dev`nextName, dev`live, dev`allocations, dev`trace, dev`gl
      ensures Valid() && objects == old(objects) + [m]
      ensures fresh(m) && m.diffuse == d && m.specular == s && m.model == model && m.indiceNum == |indices|
      ensures m.vertices == vertices && m.indices == indices
      ensures dev.gl.program == old(dev.gl.program) && dev.gl.uniforms == old(dev.gl.uniforms)
    {
      m := AddMesh(dev, cell, objectProg, lightProg, helpProg, depth, rsm, objects, pointLights, spotLights, textures,
                   vertices, indices, d, s, model);
      objects := objects + [m];
    }

    /**
     * `build_object(builder)`: the builder fills its lists, both texture
     * paths go through the cache (diffuse first), and one textured mesh is
     * appended to the objects; the light registries are untouched. A null
     * path is outside the contract.
     */
    method BuildObject(b: Builders.Builder)
      requires Valid() && b.diffuse.Some? && b.specular.Some?
      modifies b`vertices, b`indices, this`objects, this`textures
      modifies dev`nextName, dev`live, dev`allocations, dev`trace, dev`gl, dev`log
      ensures Valid()
      ensures |objects| == |old(objects)| + 1 && objects[..|old(objects)|] == old(objects)
      ensures pointLights == old(pointLights) && spotLights == old(spotLights)
      ensures var m := objects[|old(objects)|];
              fresh(m) && m.indiceNum == |b.indices| && m.model == b.model &&
              m.vertices == b.vertices && m.indices == b.indices &&
              m.diffuse != null && m.specular != null && (b.diffuse == b.specular ==> m.diffuse == m.specular) &&
              textures == old(textures)[b.diffuse.value := m.diffuse][b.specular.value := m.specular]
      ensures Extends(old(textures), textures)
      ensures dev.gl.program == old(dev.gl.program) && dev.gl.uniforms == old(dev.gl.uniforms)
    {
      b.Build();
      var m := PlaceObject(b.vertices, b.indices, b.diffuse.value, b.specular.value, b.model);
    }

    /** The object's textures are built or found in the cache, and its mesh joins the scene. */
    method PlaceObject(vertices: seq<Meshes.Vertex>, indices: seq<nat>, diffuse: string, specular: string, model: Transform)
      returns (m: Meshes.Mesh)
      requires Valid()
      modifies this`objects, this`textures, dev`nextName, dev`live, dev`allocations, dev`trace, dev`gl, dev`log
      ensures Valid() && objects == old(objects) + [m]
      ensures fresh(m) && m.indiceNum == |indices| && m.model == model && m.diffuse != null && m.specular != null
      ensures m.vertices == vertices && m.indices == indices && (diffuse == specular ==> m.diffuse == m.specular)
      ensures textures == old(textures)[diffuse := m.diffuse][specular := m.specular] && Extends(old(textures), textures)
      ensures dev.gl.program == old(dev.gl.program) && dev.gl.uniforms == old(dev.gl.uniforms)
    {
      var d, s := BuildMaterial(diffuse, specular);
      m := AddObject(vertices, indices, d, s, model);
    }

    /** `build_texture(builder.diffuse)` and then `build_texture(builder.specular)`. */
    method BuildMaterial(diffuse: string, specular: string) returns (d: Textures.Texture, s: Textures.Texture)
      requires Valid()
      modifies this`textures, dev`nextName, dev`live, dev`allocations, dev`trace, dev`gl, dev`log
      ensures Valid() && d.dev == dev && s.dev == dev
      ensures textures == old(textures)[diffuse := d][specular := s] && Extends(old(textures), textures)
      ensures diffuse in old(textures) ==> d == old(textures)[diffuse]
      ensures specular in old(textures) ==> s == old(textures)[specular]
      ensures diffuse == specular ==> s == d
      ensures dev.gl.program == old(dev.gl.program) && dev.gl.uniforms == old(dev.gl.uniforms)
    {
      d := BuildTexture(diffuse);
      s := BuildTexture(specular);
    }

    /**
     * `build_point_light(builder, light)`: an untextured marker mesh is
     * appended to the point lights, the light's fields are written to slot
     * `n` (the old number of point lights) of the object program and
     * `point_light_num` becomes `n + 1`; reflective mode mirrors the diffuse
     * colour and the attenuation into the helper program.
     */
    method BuildPointLight(b: Builders.Builder, light: PointLight)
      requires Valid()
      modifies b`vertices, b`indices, this`pointLights, objectProg`cache, helpProg`cache, cell
      modifies dev`nextName, dev`live, dev`allocations, dev`trace, dev`gl, dev`log
      ensures Valid()
      ensures objects == old(objects) && spotLights == old(spotLights) && textures == old(textures)
      ensures |pointLights| == |old(pointLights)| + 1 && pointLights[..|old(pointLights)|] == old(pointLights)
      ensures var m := pointLights[|old(pointLights)|];
              fresh(m) && m.diffuse == null && m.specular == null && m.model == b.model && m.indiceNum == |b.indices| &&
              m.vertices == b.vertices && m.indices == b.indices
      ensures dev.gl.uniforms == PointLightUniforms(old(dev.gl.uniforms), dev.locate, mode, objectProg.uid, helpProg.uid,
                                                    light, |old(pointLights)|)
      ensures Stored(dev.gl.uniforms, dev.locate(objectProg.uid, "point_light_num"), objectProg.uid, "point_light_num",
                     IntV(|pointLights|))
      ensures dev.gl.program == if mode == ReflectiveShadow then helpProg.uid else objectProg.uid
    {
      b.Build();
      var m := PlacePointLight(b.vertices, b.indices, b.model, light);
    }

    /** The point light's mesh joins the scene and its parameters go to `point_lights[n]` (and to the helper program when reflective). */
    method PlacePointLight(vertices: seq<Meshes.Vertex>, indices: seq<nat>, model: Transform, light: PointLight)
      returns (m: Meshes.Mesh)
      requires Valid()
      modifies this`pointLights, objectProg`cache, helpProg`cache, cell
      modifies dev`nextName, dev`live, dev`allocations, dev`trace, dev`gl, dev`log
      ensures Valid() && pointLights == old(pointLights) + [m]
      ensures fresh(m) && m.diffuse == null && m.specular == null && m.model == model && m.indiceNum == |indices|
      ensures m.vertices == vertices && m.indices == indices
      ensures dev.gl.uniforms == PointLightUniforms(old(dev.gl.uniforms), dev.locate, mode, objectProg.uid, helpProg.uid,
                                                    light, |old(pointLights)|)
      ensures Stored(dev.gl.uniforms, dev.locate(objectProg.uid, "point_light_num"), objectProg.uid, "point_light_num",
                     IntV(|pointLights|))
      ensures dev.gl.program == if mode == ReflectiveShadow then helpProg.uid else objectProg.uid
    {
      var n := |pointLights|;
      m := AddPointLight(vertices, indices, model);
      SetPointLight(dev, cell, objectProg, lightProg, helpProg, depth, rsm, objects, pointLights, spotLights, textures, mode, light, n);
    }

    /**
     * `build_spot_light(builder, light)`: the same for spot lights, written
     * to slot `n` of `spot_lights`, with `spot_light_num` set to `n + 1`.
     */
    method BuildSpotLight(b: Builders.Builder, light: SpotLight)
      requires Valid()
      modifies b`vertices, b`indices, this`spotLights, objectProg`cache, cell
      modifies dev`nextName, dev`live, dev`allocations, dev`trace, dev`gl, dev`log
      ensures Valid()
      ensures objects == old(objects) && pointLights == old(pointLights) && textures == old(textures)
      ensures |spotLights| == |old(spotLights)| + 1 && spotLights[..|old(spotLights)|] == old(spotLights)
      ensures var m := spotLights[|old(spotLights)|];
              fresh(m) && m.diffuse == null && m.specular == null && m.model == b.model && m.indiceNum == |b.indices| &&
              m.vertices == b.vertices && m.indices == b.indices
      ensures dev.gl.uniforms == WriteAll(old(dev.gl.uniforms), objectProg.uid, dev.locate,
                                          SpotLightNames(|old(spotLights)|), SpotLightValues(light, |old(spotLights)|))
      ensures Stored(dev.gl.uniforms, dev.locate(objectProg.uid, "spot_light_num"), objectProg.uid, "spot_light_num",
                     IntV(|spotLights|))
      ensures dev.gl.program == objectProg.uid
    {
      b.Build();
      var m := PlaceSpotLight(b.vertices, b.indices, b.model, light);
    }

    /** The spot light's mesh joins the scene and its parameters go to `spot_lights[n]` of the object program. */
    method PlaceSpotLight(vertices: seq<Meshes.Vertex>, indices: seq<nat>, model: Transform, light: SpotLight)
      returns (m: Meshes.Mesh)
      requires Valid()
      modifies this`spotLights, objectProg`cache, cell
      modifies dev`nextName, dev`live, dev`allocations, dev`trace, dev`gl, dev`log
      ensures Valid() && spotLights == old(spotLights) + [m]
      ensures fresh(m) && m.diffuse == null && m.specular == null && m.model == model && m.indiceNum == |indices|
      ensures m.vertices == vertices && m.indices == indices
      ensures dev.gl.uniforms == WriteAll(old(dev.gl.uniforms), objectProg.uid, dev.locate,
                                          SpotLightNames(|old(spotLights)|), SpotLightValues(light, |old(spotLights)|))
      ensures Stored(dev.gl.uniforms, dev.locate(objectProg.uid, "spot_light_num"), objectProg.uid, "spot_light_num",
                     IntV(|spotLights|))
      ensures dev.gl.program == objectProg.uid
    {
      var n := |spotLights|;
      m := AddSpotLight(vertices, indices, model);
      SetSpotLight(dev, cell, objectProg, lightProg, helpProg, depth, rsm, objects, pointLights, spotLights, textures, light, n);
    }
    /** `build_dir_light(light)`: the single directional block is written and `dir_light_num` is 1; no registry grows. */
    method BuildDirLight(light: DirLight)
      requires Valid()
      modifies objectProg`cache, cell, dev`trace, dev`gl, dev`log
      ensures Valid()
      ensures dev.gl == old(dev.gl).(program := objectProg.uid,
                                     uniforms := WriteAll(old(dev.gl.uniforms), objectProg.uid, dev.locate, DirNames, DirLightValues(light)))
      ensures Stored(dev.gl.uniforms, dev.locate(objectProg.uid, "dir_light_num"), objectProg.uid, "dir_light_num", IntV(1))
    {
      SetAll(objectProg, DirNames, DirLightValues(light));
      DirLightStored(old(dev.gl.uniforms), dev.locate, objectProg.uid, light, 4);
      DirKeepsCounts(old(dev.gl.uniforms), dev.locate, objectProg.uid, light, |pointLights|, |spotLights|);
    }

    /** The frame `mainloop` presents from the scene as it stands. */
    function FrameNow(): seq<Cmd>
      reads this, depth, rsm, objects, pointLights, spotLights
    {
      FramePasses(mode, depth, rsm, objectProg.uid, lightProg.uid, helpProg.uid, objects, pointLights, spotLights)
    }

    /** The camera's view transform. */
    function View(): Transform {
      [LookAt(cameraPos, cameraPos.Plus(cameraFront), cameraUp)]
    }

    /**
     * `mainloop(window, times)` for a window that stays open for `open`
     * turns of the loop: the callbacks and shadow set-up, then per turn a
     * frame while the counter is not 0 and an event poll; the counter ends
     * at `Budget(times, open)`.
     */
    method Mainloop(times: int, open: nat) returns (left: int)
      requires Valid()
      modifies objectProg`cache, lightProg`cache, helpProg`cache, cell, dev`trace, dev`gl, dev`log
      ensures Valid() && left == Budget(times, open)
      ensures Passes(dev.trace) == Passes(old(dev.trace)) + StartPasses(times) + LoopPasses(old(FrameNow()), times, open)
    {
      left := Run(dev, cell, objectProg, lightProg, helpProg, depth, rsm, objects, pointLights, spotLights, textures, mode,
                  View(), cameraPos, times, open, FrameNow());
      CountsApart(0);
    }

    /**
     * One mesh of an imported model: its vertices and indices, the textures
     * of the first diffuse and first specular path its material names (the
     * diffuse one first), and the mesh itself, placed in `objects`.
     */
    method BuildImported(im: Models.ImportedMesh, mat: Models.Material, dir: string, model: Transform) returns (m: Meshes.Mesh)
      requires Valid() && Models.Complete(im)
      modifies this`objects, this`textures, dev`nextName, dev`live, dev`allocations, dev`trace, dev`gl, dev`log
      ensures Valid() && objects == old(objects) + [m] && fresh(m)
      ensures Made(m, im, mat, dir, model, textures) && Extends(old(textures), textures)
    {
      var vertices := Models.Vertices(im);
      var indices := Models.Indices(im.faces);
      var d, s := BuildMaps(Models.FirstTexture(dir, mat.diffuse), Models.FirstTexture(dir, mat.specular));
      m := AddObject(vertices, indices, d, s, model);
    }

    /** The textures of an imported material: each named path is built or found in the cache, a missing one is none. */
    method BuildMaps(dp: Option<string>, sp: Option<string>) returns (d: Textures.Texture?, s: Textures.Texture?)
      requires Valid()
      modifies this`textures, dev`nextName, dev`live, dev`allocations, dev`trace, dev`gl, dev`log
      ensures Valid() && (d != null ==> d.dev == dev) && (s != null ==> s.dev == dev)
      ensures Uses(d, dp, textures) && Uses(s, sp, textures) && Extends(old(textures), textures)
    {
      d := null;
      if dp.Some? {
        d := BuildTexture(dp.value);
      }
      s := null;
      if sp.Some? {
        s := BuildTexture(sp.value);
      }
    }

    /** The meshes of one node, in the node's order. */
    method BuildNode(node: Models.Node, sc: Models.Imported, dir: string, model: Transform, ghost start: nat, ghost done: seq<nat>)
      requires Valid() && Models.WellFormed(sc) && Built(objects, start, done, sc, dir, model, textures)
      requires forall i :: 0 <= i < |node.meshes| ==> node.meshes[i] < |sc.meshes|
      modifies this`objects, this`textures, dev`nextName, dev`live, dev`allocations, dev`trace, dev`gl, dev`log
      ensures Valid() && old(objects) <= objects && Extends(old(textures), textures)
      ensures Built(objects, start, done + node.meshes, sc, dir, model, textures)
    {
      for j := 0 to |node.meshes|
        invariant Valid() && old(objects) <= objects && Extends(old(textures), textures)
        invariant Built(objects, start, done + node.meshes[..j], sc, dir, model, textures)
      {
        var im := sc.meshes[node.meshes[j]];
        assert Models.MeshOk(im, |sc.materials|);
        ghost var before, cache := objects, textures;
        var m := BuildImported(im, sc.materials[im.material], dir, model);
        BuiltNext(before, m, start, done, node.meshes, j, sc, dir, model, cache, textures);
      }
      assert node.meshes[..|node.meshes|] == node.meshes;
    }

    /**
     * `build_model(path, scale)`, given what the importer reads from `path`:
     * a failed or incomplete import, or one without a root node, is reported
     * and builds nothing; otherwise the node tree is walked breadth-first
     * from the root and every mesh a node refers to is built, in that order,
     * scaled by `scale`, with its textures looked up next to the model file.
     */
    method BuildModel(path: string, scale: real, read: Option<Models.Imported>)
      requires Valid() && (read.Some? ==> Models.WellFormed(read.value))
      modifies this`objects, this`textures, dev`nextName, dev`live, dev`allocations, dev`trace, dev`gl, dev`log
      ensures Valid() && Extends(old(textures), textures) && old(objects) <= objects
      ensures Models.ImportFails(read) ==>
                objects == old(objects) && textures == old(textures) && dev.trace == old(dev.trace) &&
                dev.log == old(dev.log) + [ImportFailed]
      ensures !Models.ImportFails(read) ==>
                Built(objects, |old(objects)|, Models.MeshOrder(read.value), read.value, Models.Directory(path), [Scale(scale)], textures)
    {
      var model := [Scale(scale)];
      var dir := Models.Directory(path);
      if read.None? || read.value.incomplete || read.value.root.None? {
        dev.Report(ImportFailed);
        return;
      }
      BuildScene(read.value, dir, model);
    }

    /** The meshes of every node of `sc`, reached breadth-first from its root. */
    method BuildScene(sc: Models.Imported, dir: string, model: Transform)
      requires Valid() && Models.WellFormed(sc) && sc.root.Some?
      modifies this`objects, this`textures, dev`nextName, dev`live, dev`allocations, dev`trace, dev`gl, dev`log
      ensures Valid() && Extends(old(textures), textures) && old(objects) <= objects
      ensures Built(objects, |old(objects)|, Models.MeshOrder(sc), sc, dir, model, textures)
    {
      var q := [sc.root.value];
      ghost var start := |objects|;
      ghost var done: seq<nat> := [];
      assert [sc.root.value] == q;
      while q != []
        invariant Valid() && Extends(old(textures), textures) && old(objects) <= objects
        invariant Models.IndicesBelow(q, |sc.meshes|) && done + Models.Bfs(q) == Models.MeshOrder(sc)
        invariant Built(objects, start, done, sc, dir, model, textures)
        decreases Models.ForestSize(q)
      {
        var node := q[0];
        Models.BfsAdvance(q, done, Models.MeshOrder(sc), |sc.meshes|);
        BuildNode(node, sc, dir, model, start, done);
        done := done + node.meshes;
        q := q[1..] + node.children;
      }
    }
  }
}
