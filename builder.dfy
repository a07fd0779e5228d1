/**
 * include/builder.h: the geometry builders. A builder carries the vertex and
 * index lists of one object, the paths of its two textures (`None` for a
 * null `const char*`) and its model transform; `build` fills the lists from
 * a constant table. The C++ class hierarchy (`BasicBuilder` with the
 * `NoneBuilder`, `PlaneBuilder`, `CubeBuilder` and `RoomBuilder`
 * overrides of `build`) becomes one class tagged with its shape.
 */
module Builders {
  import opened Common
  import Meshes

  type Vertex = Meshes.Vertex

  /** One row of a vertex table: position, normal, texture coordinate. */
  function V(px: real, py: real, pz: real, nx: real, ny: real, nz: real, u: real, v: real): Vertex {
    Meshes.Vertex(Vec3(px, py, pz), Vec3(nx, ny, nz), Vec2(u, v))
  }

  /** Both texture coordinates are 0 or 1: the texture is stretched once over each face. */
  predicate CornerCoords(v: Vertex) {
    (v.coord.x == 0.0 || v.coord.x == 1.0) && (v.coord.y == 0.0 || v.coord.y == 1.0)
  }

  /** The normal is one of the six unit axis vectors. */
  predicate AxisNormal(v: Vertex) {
    var n := v.normal;
    (n == Vec3(1.0, 0.0, 0.0) || n == Vec3(-1.0, 0.0, 0.0) || n == Vec3(0.0, 1.0, 0.0) ||
     n == Vec3(0.0, -1.0, 0.0) || n == Vec3(0.0, 0.0, 1.0) || n == Vec3(0.0, 0.0, -1.0))
  }

  /** `PlaneBuilder`'s table: a unit square in the plane y = 0, facing up. */
  function PlaneVertices(): (r: seq<Vertex>)
    ensures |r| == 4
    ensures forall i :: 0 <= i < |r| ==> r[i].position.y == 0.0 && r[i].normal == Vec3(0.0, 1.0, 0.0) && CornerCoords(r[i])
  {
    [
      V(0.5, 0.0, 0.5, 0.0, 1.0, 0.0, 1.0, 0.0), V(0.5, 0.0, -0.5, 0.0, 1.0, 0.0, 1.0, 1.0),
      V(-0.5, 0.0, -0.5, 0.0, 1.0, 0.0, 0.0, 1.0), V(-0.5, 0.0, 0.5, 0.0, 1.0, 0.0, 0.0, 0.0)
    ]
  }

  const PlaneIndices: seq<nat> := [0, 1, 2, 0, 2, 3]

  /** Three consecutive rows of a vertex table, drawn as one triangle. */
  datatype Triangle = Triangle(a: Vertex, b: Vertex, c: Vertex)

  /**
   * The triangle shares one normal and runs counter-clockwise when seen from
   * the side that normal points to, so OpenGL's default winding makes it a
   * front face from there.
   */
  predicate Faces(a: Vertex, b: Vertex, c: Vertex) {
    // the triple product (b - a) x (c - a) . n, written out
    var p, q, r, n := a.position, b.position, c.position, a.normal;
    var ux, uy, uz := q.x - p.x, q.y - p.y, q.z - p.z;
    var wx, wy, wz := r.x - p.x, r.y - p.y, r.z - p.z;
    a.normal == b.normal && b.normal == c.normal &&
    (uy * wz - uz * wy) * n.x + (uz * wx - ux * wz) * n.y + (ux * wy - uy * wx) * n.z > 0.0
  }

  /**
   * A row of the cube tables: an axis normal, a position on the face
   * `side` units along that normal from the centre, and corner coordinates.
   */
  predicate OnSide(v: Vertex, side: real) {
    var p, n := v.position, v.normal;
    AxisNormal(v) && n.x * p.x + n.y * p.y + n.z * p.z == side && CornerCoords(v)
  }

  predicate Sided(t: Triangle, side: real) {
    OnSide(t.a, side) && OnSide(t.b, side) && OnSide(t.c, side)
  }

  /** A triangle of `CubeBuilder`'s table: on the cube's surface and facing out of it. */
  type OuterTriangle = t: Triangle | Faces(t.a, t.b, t.c) && Sided(t, 0.5)
    witness Triangle(V(-0.5, -0.5, -0.5, 0.0, 0.0, -1.0, 0.0, 0.0), V(0.5, 0.5, -0.5, 0.0, 0.0, -1.0, 1.0, 1.0), V(0.5, -0.5, -0.5, 0.0, 0.0, -1.0, 1.0, 0.0))

  /** A triangle of `RoomBuilder`'s table: on the cube's surface and facing into it. */
  type InnerTriangle = t: Triangle | Faces(t.a, t.b, t.c) && Sided(t, -0.5)
    witness Triangle(V(-0.5, -0.5, -0.5, 0.0, 0.0, 1.0, 0.0, 0.0), V(0.5, -0.5, -0.5, 0.0, 0.0, 1.0, 1.0, 0.0), V(0.5, 0.5, -0.5, 0.0, 0.0, 1.0, 1.0, 1.0))

  /** The rows of a list of triangles, three per triangle and in order. */
  function Rows(ts: seq<Triangle>): (r: seq<Vertex>)
    ensures |r| == 3 * |ts|
    ensures forall t :: 0 <= t < |ts| ==> r[3 * t] == ts[t].a && r[3 * t + 1] == ts[t].b && r[3 * t + 2] == ts[t].c
    decreases |ts|
  {
    if ts == [] then []
    else
      var t := ts[|ts| - 1];
      Rows(ts[..|ts| - 1]) + [t.a, t.b, t.c]
  }

  /** Every row of a list of triangles lying on one side lies on that side. */
  lemma {:induction false} RowsSided(ts: seq<Triangle>, side: real)
    requires forall t :: 0 <= t < |ts| ==> Sided(ts[t], side)
    ensures forall i :: 0 <= i < |Rows(ts)| ==> OnSide(Rows(ts)[i], side)
  {
    var r := Rows(ts);
    forall i | 0 <= i < |r|
      ensures OnSide(r[i], side)
    {
      var t := i / 3;
      assert Sided(ts[t], side);
      assert i == 3 * t || i == 3 * t + 1 || i == 3 * t + 2;
    }
  }

  /** `CubeBuilder`'s table, as the twelve triangles its 36 rows form. */
  function CubeTriangles(): (r: seq<OuterTriangle>)
    ensures |r| == 12
  {
    [
      Triangle(V(-0.5, -0.5, -0.5, 0.0, 0.0, -1.0, 0.0, 0.0),
               V(0.5, 0.5, -0.5, 0.0, 0.0, -1.0, 1.0, 1.0),
               V(0.5, -0.5, -0.5, 0.0, 0.0, -1.0, 1.0, 0.0)),
      Triangle(V(0.5, 0.5, -0.5, 0.0, 0.0, -1.0, 1.0, 1.0),
               V(-0.5, -0.5, -0.5, 0.0, 0.0, -1.0, 0.0, 0.0),
               V(-0.5, 0.5, -0.5, 0.0, 0.0, -1.0, 0.0, 1.0)),
      Triangle(V(-0.5, -0.5, 0.5, 0.0, 0.0, 1.0, 0.0, 0.0),
               V(0.5, -0.5, 0.5, 0.0, 0.0, 1.0, 1.0, 0.0),
               V(0.5, 0.5, 0.5, 0.0, 0.0, 1.0, 1.0, 1.0)),
      Triangle(V(0.5, 0.5, 0.5, 0.0, 0.0, 1.0, 1.0, 1.0),
               V(-0.5, 0.5, 0.5, 0.0, 0.0, 1.0, 0.0, 1.0),
               V(-0.5, -0.5, 0.5, 0.0, 0.0, 1.0, 0.0, 0.0)),
      Triangle(V(-0.5, 0.5, 0.5, -1.0, 0.0, 0.0, 1.0, 0.0),
               V(-0.5, 0.5, -0.5, -1.0, 0.0, 0.0, 1.0, 1.0),
               V(-0.5, -0.5, -0.5, -1.0, 0.0, 0.0, 0.0, 1.0)),
      Triangle(V(-0.5, -0.5, -0.5, -1.0, 0.0, 0.0, 0.0, 1.0),
               V(-0.5, -0.5, 0.5, -1.0, 0.0, 0.0, 0.0, 0.0),
               V(-0.5, 0.5, 0.5, -1.0, 0.0, 0.0, 1.0, 0.0)),
      Triangle(V(0.5, 0.5, 0.5, 1.0, 0.0, 0.0, 1.0, 0.0),
               V(0.5, -0.5, -0.5, 1.0, 0.0, 0.0, 0.0, 1.0),
               V(0.5, 0.5, -0.5, 1.0, 0.0, 0.0, 1.0, 1.0)),
      Triangle(V(0.5, -0.5, -0.5, 1.0, 0.0, 0.0, 0.0, 1.0),
               V(0.5, 0.5, 0.5, 1.0, 0.0, 0.0, 1.0, 0.0),
               V(0.5, -0.5, 0.5, 1.0, 0.0, 0.0, 0.0, 0.0)),
      Triangle(V(-0.5, -0.5, -0.5, 0.0, -1.0, 0.0, 0.0, 1.0),
               V(0.5, -0.5, -0.5, 0.0, -1.0, 0.0, 1.0, 1.0),
               V(0.5, -0.5, 0.5, 0.0, -1.0, 0.0, 1.0, 0.0)),
      Triangle(V(0.5, -0.5, 0.5, 0.0, -1.0, 0.0, 1.0, 0.0),
               V(-0.5, -0.5, 0.5, 0.0, -1.0, 0.0, 0.0, 0.0),
               V(-0.5, -0.5, -0.5, 0.0, -1.0, 0.0, 0.0, 1.0)),
      Triangle(V(-0.5, 0.5, -0.5, 0.0, 1.0, 0.0, 0.0, 1.0),
               V(0.5, 0.5, 0.5, 0.0, 1.0, 0.0, 1.0, 0.0),
               V(0.5, 0.5, -0.5, 0.0, 1.0, 0.0, 1.0, 1.0)),
      Triangle(V(0.5, 0.5, 0.5, 0.0, 1.0, 0.0, 1.0, 0.0),
               V(-0.5, 0.5, -0.5, 0.0, 1.0, 0.0, 0.0, 1.0),
               V(-0.5, 0.5, 0.5, 0.0, 1.0, 0.0, 0.0, 0.0))
    ]
  }

  /** `RoomBuilder`'s table: the same unit cube seen from inside. */
  function RoomTriangles(): (r: seq<InnerTriangle>)
    ensures |r| == 12
  {
    [
      Triangle(V(-0.5, -0.5, -0.5, 0.0, 0.0, 1.0, 0.0, 0.0),
               V(0.5, -0.5, -0.5, 0.0, 0.0, 1.0, 1.0, 0.0),
               V(0.5, 0.5, -0.5, 0.0, 0.0, 1.0, 1.0, 1.0)),
      Triangle(V(0.5, 0.5, -0.5, 0.0, 0.0, 1.0, 1.0, 1.0),
               V(-0.5, 0.5, -0.5, 0.0, 0.0, 1.0, 0.0, 1.0),
               V(-0.5, -0.5, -0.5, 0.0, 0.0, 1.0, 0.0, 0.0)),
      Triangle(V(-0.5, -0.5, 0.5, 0.0, 0.0, -1.0, 0.0, 0.0),
               V(0.5, 0.5, 0.5, 0.0, 0.0, -1.0, 1.0, 1.0),
               V(0.5, -0.5, 0.5, 0.0, 0.0, -1.0, 1.0, 0.0)),
      Triangle(V(0.5, 0.5, 0.5, 0.0, 0.0, -1.0, 1.0, 1.0),
               V(-0.5, -0.5, 0.5, 0.0, 0.0, -1.0, 0.0, 0.0),
               V(-0.5, 0.5, 0.5, 0.0, 0.0, -1.0, 0.0, 1.0)),
      Triangle(V(-0.5, 0.5, 0.5, 1.0, 0.0, 0.0, 1.0, 0.0),
               V(-0.5, -0.5, -0.5, 1.0, 0.0, 0.0, 0.0, 1.0),
               V(-0.5, 0.5, -0.5, 1.0, 0.0, 0.0, 1.0, 1.0)),
      Triangle(V(-0.5, -0.5, -0.5, 1.0, 0.0, 0.0, 0.0, 1.0),
               V(-0.5, 0.5, 0.5, 1.0, 0.0, 0.0, 1.0, 0.0),
               V(-0.5, -0.5, 0.5, 1.0, 0.0, 0.0, 0.0, 0.0)),
      Triangle(V(0.5, 0.5, 0.5, -1.0, 0.0, 0.0, 1.0, 0.0),
               V(0.5, 0.5, -0.5, -1.0, 0.0, 0.0, 1.0, 1.0),
               V(0.5, -0.5, -0.5, -1.0, 0.0, 0.0, 0.0, 1.0)),
      Triangle(V(0.5, -0.5, -0.5, -1.0, 0.0, 0.0, 0.0, 1.0),
               V(0.5, -0.5, 0.5, -1.0, 0.0, 0.0, 0.0, 0.0),
               V(0.5, 0.5, 0.5, -1.0, 0.0, 0.0, 1.0, 0.0)),
      Triangle(V(-0.5, -0.5, -0.5, 0.0, 1.0, 0.0, 0.0, 1.0),
               V(0.5, -0.5, 0.5, 0.0, 1.0, 0.0, 1.0, 0.0),
               V(0.5, -0.5, -0.5, 0.0, 1.0, 0.0, 1.0, 1.0)),
      Triangle(V(0.5, -0.5, 0.5, 0.0, 1.0, 0.0, 1.0, 0.0),
               V(-0.5, -0.5, -0.5, 0.0, 1.0, 0.0, 0.0, 1.0),
               V(-0.5, -0.5, 0.5, 0.0, 1.0, 0.0, 0.0, 0.0)),
      Triangle(V(-0.5, 0.5, -0.5, 0.0, -1.0, 0.0, 0.0, 1.0),
               V(0.5, 0.5, -0.5, 0.0, -1.0, 0.0, 1.0, 1.0),
               V(0.5, 0.5, 0.5, 0.0, -1.0, 0.0, 1.0, 0.0)),
      Triangle(V(0.5, 0.5, 0.5, 0.0, -1.0, 0.0, 1.0, 0.0),
               V(-0.5, 0.5, 0.5, 0.0, -1.0, 0.0, 0.0, 0.0),
               V(-0.5, 0.5, -0.5, 0.0, -1.0, 0.0, 0.0, 1.0))
    ]
  }

  /** `0, 1, ..., n - 1`: the index list `CubeBuilder` and `RoomBuilder` write in their loop. */
  function Identity(n: nat): (r: seq<nat>)
    ensures |r| == n && forall i :: 0 <= i < n ==> r[i] == i
  {
    seq(n, i => i)
  }

  /** Every index names a vertex of the list. */
  predicate InRange(vs: seq<Vertex>, idx: seq<nat>) {
    forall i :: 0 <= i < |idx| ==> idx[i] < |vs|
  }

  /** Triangle `t` of the index list faces along its normal. */
  predicate TriangleFaces(vs: seq<Vertex>, idx: seq<nat>, t: nat)
    requires InRange(vs, idx) && 3 * t + 2 < |idx|
  {
    Faces(vs[idx[3 * t]], vs[idx[3 * t + 1]], vs[idx[3 * t + 2]])
  }

  /** The index list is a list of whole triangles, each facing along its normal. */
  predicate FrontFacing(vs: seq<Vertex>, idx: seq<nat>) {
    InRange(vs, idx) && |idx| % 3 == 0 &&
    forall t: nat :: t < |idx| / 3 ==> TriangleFaces(vs, idx, t)
  }

  /** Drawing the rows of a list of facing triangles in order draws those triangles. */
  lemma {:induction false} RowsFacing(ts: seq<Triangle>)
    requires forall t :: 0 <= t < |ts| ==> Faces(ts[t].a, ts[t].b, ts[t].c)
    ensures FrontFacing(Rows(ts), Identity(3 * |ts|))
  {
    var vs, idx := Rows(ts), Identity(3 * |ts|);
    assert |idx| / 3 == |ts|;
    forall t: nat | t < |ts|
      ensures TriangleFaces(vs, idx, t)
    {
      assert vs[3 * t] == ts[t].a;
    }
  }

  /** The plane's two triangles face up. */
  lemma PlaneFrontFacing()
    ensures FrontFacing(PlaneVertices(), PlaneIndices)
  {
    var vs, idx := PlaneVertices(), PlaneIndices;
    forall t: nat | t < 2
      ensures TriangleFaces(vs, idx, t)
    {
      assert t == 0 || t == 1;
    }
  }

  /**
   * `CubeBuilder`'s 36 rows: every normal is an axis, every position lies on
   * the face half a unit out along it, and every triangle faces outwards, so
   * the cube is seen from outside.
   */
  function CubeVertices(): (r: seq<Vertex>)
    ensures |r| == 36
    ensures forall i :: 0 <= i < |r| ==> OnSide(r[i], 0.5)
    ensures FrontFacing(r, Identity(36))
  {
    var ts := CubeTriangles();
    RowsFacing(ts);
    RowsSided(ts, 0.5);
    Rows(ts)
  }

  /**
   * `RoomBuilder`'s 36 rows: the cube's surface with every normal pointing
   * at the centre, and every triangle facing inwards, so the room is seen
   * from inside.
   */
  function RoomVertices(): (r: seq<Vertex>)
    ensures |r| == 36
    ensures forall i :: 0 <= i < |r| ==> OnSide(r[i], -0.5)
    ensures FrontFacing(r, Identity(36))
  {
    var ts := RoomTriangles();
    RowsFacing(ts);
    RowsSided(ts, -0.5);
    Rows(ts)
  }

  /** A transform made of scalings and translations only, which act on points without trigonometry. */
  predicate Affine(t: Transform) {
    forall i :: 0 <= i < |t| ==> t[i].Scale? || t[i].Translate?
  }

  /** Where the matrix product of `t` takes the point `p`: the last operation acts first. */
  function MapPoint(t: Transform, p: Vec3): Vec3
    requires Affine(t)
    decreases |t|
  {
    if t == [] then p
    else
      var q := MapPoint(t[1..], p);
      match t[0]
      case Scale(k) => q.Times(k)
      case Translate(d) => q.Plus(d)
  }

  /** `glm::translate(glm::scale(I, size), center / size)`: how the shaped builders place their unit model. */
  function Placement(center: Vec3, size: real): (r: Transform)
    requires size != 0.0
    ensures Affine(r)
  {
    [Scale(size), Translate(center.Times(1.0 / size))]
  }

  /** The placement scales the unit model by `size` about the origin and then moves the origin to `center`. */
  lemma PlacementMaps(center: Vec3, size: real, p: Vec3)
    requires size != 0.0
    ensures MapPoint(Placement(center, size), p) == p.Times(size).Plus(center)
  {
    var k := 1.0 / size;
    assert size * k == 1.0;
    var t := Placement(center, size);
    assert MapPoint(t[1..], p) == p.Plus(center.Times(k));
    assert size * (p.x + k * center.x) == size * p.x + (size * k) * center.x;
    assert size * (p.y + k * center.y) == size * p.y + (size * k) * center.y;
    assert size * (p.z + k * center.z) == size * p.z + (size * k) * center.z;
  }

  /** The shape a builder fills its lists with; `NoShape` is `NoneBuilder`. */
  datatype Shape = NoShape | PlaneShape | CubeShape | RoomShape

  /** `BasicBuilder` together with the `build` of the subclass that created it. */
  class Builder {
    const shape: Shape
    var vertices: seq<Vertex>
    var indices: seq<nat>
    const diffuse: CStr
    const specular: CStr
    var model: Transform

    /** `NoneBuilder()`: no textures, the identity transform, and nothing to build. */
    constructor None()
      ensures shape == NoShape && diffuse == Common.None && specular == Common.None
      ensures model == [] && vertices == [] && indices == []
    {
      shape, diffuse, specular, model := NoShape, Common.None, Common.None, [];
      vertices, indices := [], [];
    }

    /**
     * The four-argument constructor of `PlaneBuilder`, `CubeBuilder` and
     * `RoomBuilder`: the unit model is scaled by `size` and centred on `center`.
     */
    constructor (shape: Shape, center: Vec3, size: real, diffuse: CStr, specular: CStr)
      requires shape != NoShape && size != 0.0
      ensures this.shape == shape && this.diffuse == diffuse && this.specular == specular
      ensures model == Placement(center, size) && vertices == [] && indices == []
    {
      this.shape, this.diffuse, this.specular := shape, diffuse, specular;
      model := Placement(center, size);
      vertices, indices := [], [];
    }

    /** The three-argument constructor: one texture serves as both diffuse and specular map. */
    constructor Single(shape: Shape, center: Vec3, size: real, texture: CStr)
      requires shape != NoShape && size != 0.0
      ensures this.shape == shape && diffuse == texture && specular == texture
      ensures model == Placement(center, size) && vertices == [] && indices == []
    {
      this.shape, diffuse, specular := shape, texture, texture;
      model := Placement(center, size);
      vertices, indices := [], [];
    }

    /** `rotate(degree, axis)`: right-multiplies the model matrix, so the rotation acts before the placement. */
    method Rotate(degree: int, axis: Vec3)
      modifies this`model
      ensures model == old(model) + [TransformOp.Rotate(degree, axis)]
    {
      model := model + [TransformOp.Rotate(degree, axis)];
    }

    /**
     * `build()`: fills the lists from the shape's table. Every shape yields
     * whole triangles facing along their normals; the cube and the room
     * number their 36 vertices in order.
     */
    method Build()
      modifies this`vertices, this`indices
      ensures shape == NoShape ==> vertices == old(vertices) && indices == old(indices)
      ensures shape == PlaneShape ==> vertices == PlaneVertices() && indices == PlaneIndices
      ensures shape == CubeShape ==> vertices == CubeVertices()
      ensures shape == RoomShape ==> vertices == RoomVertices()
      ensures shape == CubeShape || shape == RoomShape ==> indices == Identity(36)
      ensures shape != NoShape ==> FrontFacing(vertices, indices)
    {
      match shape
      case NoShape =>
      case PlaneShape =>
        indices := PlaneIndices;
        vertices := PlaneVertices();
        PlaneFrontFacing();
      case _ =>
        indices := Resized(indices, 36);
        for i := 0 to 36
          invariant |indices| == 36
          invariant forall j :: 0 <= j < i ==> indices[j] == j
        {
          indices := indices[i := i];
        }
        assert indices == Identity(36);
        if shape == CubeShape {
          vertices := CubeVertices();
        } else {
          vertices := RoomVertices();
        }
    }
  }

  /** `std::vector::resize`: keeps the first `n` entries and pads with zeros. */
  function Resized(s: seq<nat>, n: nat): (r: seq<nat>)
    ensures |r| == n
    ensures forall i :: 0 <= i < n ==> r[i] == (if i < |s| then s[i] else 0)
  {
    if n <= |s| then s[..n] else s + seq(n - |s|, _ => 0)
  }
}
