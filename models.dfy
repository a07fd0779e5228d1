/**
 * The imported scene `World::build_model` walks: a node tree whose nodes
 * refer to meshes by index, meshes with positions, normals, an optional
 * first texture-coordinate set and polygon faces, and materials naming
 * their diffuse and specular textures. The importer itself is outside the
 * model; its result is an input value.
 */
module Models {
  import opened Common
  import Meshes

  /** `aiNode`: the indices of its meshes in the scene, and its children. */
  datatype Node = Node(meshes: seq<nat>, children: seq<Node>)

  /**
   * `aiMesh`: positions and normals per vertex, the first texture-coordinate
   * set if the mesh has one, its faces as lists of vertex indices, and the
   * index of its material.
   */
  datatype ImportedMesh = ImportedMesh(positions: seq<Vec3>, normals: seq<Vec3>, coords: Option<seq<Vec3>>,
                                       faces: seq<seq<nat>>, material: nat)

  /** `aiMaterial`: the texture paths of its diffuse and specular stacks, relative to the model file. */
  datatype Material = Material(diffuse: seq<string>, specular: seq<string>)

  /** `aiScene`: the root node if any, the meshes, the materials, and whether the import is flagged incomplete. */
  datatype Imported = Imported(root: Option<Node>, meshes: seq<ImportedMesh>, materials: seq<Material>, incomplete: bool)

  /** The number of nodes of a forest. */
  function ForestSize(q: seq<Node>): nat
    decreases q
  {
    if q == [] then 0 else 1 + ForestSize(q[0].children) + ForestSize(q[1..])
  }

  /** Sizes add up over a concatenation of forests. */
  lemma {:induction false} ForestSizeAppend(a: seq<Node>, b: seq<Node>)
    ensures ForestSize(a + b) == ForestSize(a) + ForestSize(b)
  {
    if a != [] {
      assert (a + b)[0] == a[0] && (a + b)[1..] == a[1..] + b;
      ForestSizeAppend(a[1..], b);
    } else {
      assert a + b == b;
    }
  }

  /** Taking the front node off the queue and queueing its children leaves a smaller forest. */
  lemma QueueStep(q: seq<Node>)
    requires q != []
    ensures ForestSize(q[1..] + q[0].children) < ForestSize(q)
  {
    ForestSizeAppend(q[1..], q[0].children);
  }

  /** The mesh indices met by a breadth-first walk from the queue `q`: the front node's, then those of the rest with its children queued behind. */
  function Bfs(q: seq<Node>): seq<nat>
    decreases ForestSize(q)
  {
    if q == [] then []
    else
      QueueStep(q);
      q[0].meshes + Bfs(q[1..] + q[0].children)
  }

  /** The mesh indices of a forest, node before children before later siblings. */
  function Forest(q: seq<Node>): seq<nat>
    decreases q
  {
    if q == [] then [] else q[0].meshes + Forest(q[0].children) + Forest(q[1..])
  }

  /** Mesh indices add up over a concatenation of forests. */
  lemma {:induction false} ForestAppend(a: seq<Node>, b: seq<Node>)
    ensures multiset(Forest(a + b)) == multiset(Forest(a)) + multiset(Forest(b))
  {
    if a != [] {
      assert (a + b)[0] == a[0] && (a + b)[1..] == a[1..] + b;
      ForestAppend(a[1..], b);
    } else {
      assert a + b == b;
    }
  }

  /** The breadth-first walk meets every mesh reference of the forest, each as often as the forest holds it. */
  lemma {:induction false} BfsCoversForest(q: seq<Node>)
    ensures multiset(Bfs(q)) == multiset(Forest(q))
    decreases ForestSize(q)
  {
    if q != [] {
      QueueStep(q);
      BfsCoversForest(q[1..] + q[0].children);
      ForestAppend(q[1..], q[0].children);
    }
  }

  /** Every mesh index of the forest names one of `count` meshes. */
  predicate IndicesBelow(q: seq<Node>, count: nat)
    decreases q
  {
    q == [] ||
    ((forall i :: 0 <= i < |q[0].meshes| ==> q[0].meshes[i] < count) && IndicesBelow(q[0].children, count) && IndicesBelow(q[1..], count))
  }

  /** The bound holds for a concatenation of forests when it holds for both. */
  lemma {:induction false} IndicesBelowAppend(a: seq<Node>, b: seq<Node>, count: nat)
    requires IndicesBelow(a, count) && IndicesBelow(b, count)
    ensures IndicesBelow(a + b, count)
  {
    if a != [] {
      assert (a + b)[0] == a[0] && (a + b)[1..] == a[1..] + b;
      IndicesBelowAppend(a[1..], b, count);
    } else {
      assert a + b == b;
    }
  }

  /** One step of the walk: the front node's meshes are met next, and the queue that follows stays in range and smaller. */
  lemma BfsAdvance(q: seq<Node>, done: seq<nat>, order: seq<nat>, count: nat)
    requires q != [] && IndicesBelow(q, count) && done + Bfs(q) == order
    ensures forall i :: 0 <= i < |q[0].meshes| ==> q[0].meshes[i] < count
    ensures IndicesBelow(q[1..] + q[0].children, count)
    ensures ForestSize(q[1..] + q[0].children) < ForestSize(q)
    ensures (done + q[0].meshes) + Bfs(q[1..] + q[0].children) == order
  {
    QueueStep(q);
    IndicesBelowAppend(q[1..], q[0].children, count);
    assert done + Bfs(q) == done + q[0].meshes + Bfs(q[1..] + q[0].children);
  }

  /** Every index the breadth-first walk meets is in range when the forest's are. */
  lemma {:induction false} BfsBelow(q: seq<Node>, count: nat)
    requires IndicesBelow(q, count)
    ensures forall i :: 0 <= i < |Bfs(q)| ==> Bfs(q)[i] < count
    decreases ForestSize(q)
  {
    if q != [] {
      QueueStep(q);
      IndicesBelowAppend(q[1..], q[0].children, count);
      BfsBelow(q[1..] + q[0].children, count);
    }
  }

  /** A normal per position, and a coordinate per position when the mesh has coordinates. */
  predicate Complete(m: ImportedMesh) {
    |m.normals| == |m.positions| && (m.coords.Some? ==> |m.coords.value| == |m.positions|)
  }

  /** A mesh the importer can hand over: complete, with a known material. */
  predicate MeshOk(m: ImportedMesh, materials: nat) {
    Complete(m) && m.material < materials
  }

  /** What the importer guarantees of a scene: node references and material indices are in range, and meshes are complete. */
  predicate WellFormed(s: Imported) {
    (s.root.Some? ==> IndicesBelow([s.root.value], |s.meshes|)) &&
    forall i :: 0 <= i < |s.meshes| ==> MeshOk(s.meshes[i], |s.materials|)
  }

  /** `!scene || scene->mFlags & AI_SCENE_FLAGS_INCOMPLETE || !scene->mRootNode`. */
  predicate ImportFails(read: Option<Imported>) {
    read.None? || read.value.incomplete || read.value.root.None?
  }

  /** The meshes `build_model` builds, by index in the scene, in the order it builds them. */
  function MeshOrder(s: Imported): seq<nat>
    requires s.root.Some?
  {
    Bfs([s.root.value])
  }

  /** Every mesh reference of the tree is built, as often as the tree holds it, and only those. */
  lemma MeshOrderComplete(s: Imported)
    requires s.root.Some?
    ensures multiset(MeshOrder(s)) == multiset(s.root.value.meshes + Forest(s.root.value.children))
  {
    BfsCoversForest([s.root.value]);
    assert [s.root.value][1..] == [];
  }

  /** The position of the last `/` in `path`, if any (`find_last_of('/')`). */
  function LastSlash(path: string): (r: Option<nat>)
    ensures r.Some? ==> r.value < |path| && path[r.value] == '/' && forall i :: r.value < i < |path| ==> path[i] != '/'
    ensures r.None? ==> forall i :: 0 <= i < |path| ==> path[i] != '/'
  {
    if path == [] then None
    else if path[|path| - 1] == '/' then Some(|path| - 1)
    else LastSlash(path[..|path| - 1])
  }

  /**
   * `path.substr(0, path.find_last_of('/'))`: the text before the last `/`,
   * or the whole path when it has none (`npos` keeps everything).
   */
  function Directory(path: string): (r: string)
    ensures r <= path
    ensures |r| < |path| ==> path[|r|] == '/' && forall i :: |r| < i < |path| ==> path[i] != '/'
    ensures |r| == |path| ==> forall i :: 0 <= i < |path| ==> path[i] != '/'
  {
    match LastSlash(path)
    case None => path
    case Some(k) => path[..k]
  }

  /** `directory + '/' + temp`: the path of a texture named by a material. */
  function TexturePath(dir: string, rel: string): (r: string)
    ensures |r| == |dir| + 1 + |rel| && r[..|dir|] == dir && r[|dir|] == '/' && r[|dir| + 1..] == rel
  {
    dir + "/" + rel
  }

  /** The first texture of a stack, as a path next to the model file; none when the stack is empty. */
  function FirstTexture(dir: string, stack: seq<string>): (r: Option<string>)
    ensures r.Some? <==> |stack| > 0
    ensures r.Some? ==> r.value == TexturePath(dir, stack[0])
  {
    if |stack| > 0 then Some(TexturePath(dir, stack[0])) else None
  }

  /** The texture coordinate of vertex `i` as the loop writes it: the first coordinate's `x`, twice. */
  function CoordAsWritten(coords: Option<seq<Vec3>>, i: nat): (r: Vec2)
    requires coords.Some? ==> i < |coords.value|
    ensures coords.None? ==> r == Vec2(0.0, 0.0)
    ensures coords.Some? ==> r.x == coords.value[0].x && r.y == coords.value[0].x
  {
    match coords
    case None => Vec2(0.0, 0.0)
    case Some(c) => Vec2(c[0].x, c[0].x)
  }

  /** As written, every vertex of a mesh gets the same coordinate, whatever the mesh's coordinate set says. */
  lemma CoordAsWrittenConstant(coords: Option<seq<Vec3>>, i: nat, j: nat)
    requires coords.Some? ==> i < |coords.value| && j < |coords.value|
    ensures CoordAsWritten(coords, i) == CoordAsWritten(coords, j)
  {
  }

  /** A two-vertex mesh whose second vertex should map to (1, 1) gets (0, 0). */
  lemma CoordAsWrittenLosesSecond()
    ensures var c := Some([Vec3(0.0, 0.0, 0.0), Vec3(1.0, 1.0, 0.0)]);
            CoordAsWritten(c, 1) == Vec2(0.0, 0.0) && Coord(c, 1) == Vec2(1.0, 1.0)
  {
  }

  /** The texture coordinate of vertex `i`: its own `x` and `y`, or `(0, 0)` when the mesh has no coordinate set. */
  function Coord(coords: Option<seq<Vec3>>, i: nat): (r: Vec2)
    requires coords.Some? ==> i < |coords.value|
    ensures coords.None? ==> r == Vec2(0.0, 0.0)
    ensures coords.Some? ==> r.x == coords.value[i].x && r.y == coords.value[i].y
  {
    match coords
    case None => Vec2(0.0, 0.0)
    case Some(c) => Vec2(c[i].x, c[i].y)
  }

  /**
   * The vertex `i` of an imported mesh as the vertex loop builds it: its own
   * position and normal, and the texture coordinate as written, the first
   * coordinate's `x` twice.
   */
  function VertexAt(m: ImportedMesh, i: nat): (v: Meshes.Vertex)
    requires Complete(m) && i < |m.positions|
    ensures v.position == m.positions[i] && v.normal == m.normals[i]
    ensures m.coords.None? ==> v.coord == Vec2(0.0, 0.0)
    ensures m.coords.Some? ==> v.coord == Vec2(m.coords.value[0].x, m.coords.value[0].x)
  {
    Meshes.Vertex(m.positions[i], m.normals[i], CoordAsWritten(m.coords, i))
  }

  /** `vs` holds one vertex per position of `m`, vertex `i` built from entry `i`. */
  ghost predicate VerticesOf(m: ImportedMesh, vs: seq<Meshes.Vertex>)
    requires Complete(m)
  {
    |vs| == |m.positions| && forall i :: 0 <= i < |vs| ==> vs[i] == VertexAt(m, i)
  }

  /**
   * As built, all vertices of a mesh with a coordinate set share one texture
   * coordinate, while the corrected coordinates of its first two vertices may
   * differ.
   */
  lemma VerticesShareCoord(m: ImportedMesh, vs: seq<Meshes.Vertex>, i: nat, j: nat)
    requires Complete(m) && VerticesOf(m, vs) && i < |vs| && j < |vs|
    ensures vs[i].coord == vs[j].coord
    ensures m.coords.Some? ==> vs[i].coord == Vec2(Coord(m.coords, 0).x, Coord(m.coords, 0).x)
  {
    assert vs[i] == VertexAt(m, i) && vs[j] == VertexAt(m, j);
  }

  /** The faces' indices, face after face. */
  function Flatten(faces: seq<seq<nat>>): seq<nat> {
    if faces == [] then [] else Flatten(faces[..|faces| - 1]) + faces[|faces| - 1]
  }

  /** Flattening adds up lengths, and keeps each face's indices in order. */
  lemma {:induction false} FlattenAppend(a: seq<seq<nat>>, b: seq<seq<nat>>)
    ensures Flatten(a + b) == Flatten(a) + Flatten(b)
    decreases |b|
  {
    if b != [] {
      assert (a + b)[..|a + b| - 1] == a + b[..|b| - 1];
      FlattenAppend(a, b[..|b| - 1]);
    } else {
      assert a + b == a;
    }
  }

  /** Triangulated faces (three indices each) flatten to three indices per face, face `k` at `3k`. */
  lemma {:induction false} FlattenTriangles(faces: seq<seq<nat>>)
    requires forall k :: 0 <= k < |faces| ==> |faces[k]| == 3
    ensures |Flatten(faces)| == 3 * |faces|
    ensures forall k, j :: 0 <= k < |faces| && 0 <= j < 3 ==> Flatten(faces)[3 * k + j] == faces[k][j]
  {
    if faces != [] {
      FlattenTriangles(faces[..|faces| - 1]);
    }
  }

  /**
   * The vertex loop of `build_model`: one vertex per position, with its
   * normal and its texture coordinate.
   */
  method Vertices(m: ImportedMesh) returns (vs: seq<Meshes.Vertex>)
    requires Complete(m)
    ensures VerticesOf(m, vs)
  {
    vs := [];
    var i := 0;
    while i < |m.positions|
      invariant i <= |m.positions| && |vs| == i
      invariant forall k :: 0 <= k < i ==> vs[k] == VertexAt(m, k)
    {
      vs := vs + [VertexAt(m, i)];
      i := i + 1;
    }
  }

  /** The index loop of `build_model`: every face's indices, face after face. */
  method Indices(faces: seq<seq<nat>>) returns (ix: seq<nat>)
    ensures ix == Flatten(faces)
  {
    ix := [];
    var i := 0;
    while i < |faces|
      invariant i <= |faces| && ix == Flatten(faces[..i])
    {
      var j := 0;
      while j < |faces[i]|
        invariant j <= |faces[i]| && ix == Flatten(faces[..i]) + faces[i][..j]
      {
        ix := ix + [faces[i][j]];
        j := j + 1;
      }
      assert faces[..i + 1][..i] == faces[..i];
      assert faces[i][..j] == faces[i];
      i := i + 1;
    }
    assert faces[..i] == faces;
  }
}
