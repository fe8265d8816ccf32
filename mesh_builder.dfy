/**
  The shared mesh builder: a table of named sub-meshes, each a pair of
  pre-sized vertex and index buffers filled through a write cursor, from which
  the render meshes and one combined static collider are built.
*/
module Meshes {
  import opened Wrappers
  import opened Geometry

  /** A sub-mesh name: a fixed name, or an interpolated `prefix{index}` name such as `line_3`. */
  datatype Key = Named(name: string) | Numbered(prefix: string, index: nat)

  datatype Material = Material(path: string)

  /** Position, normal, tangent (its w component is always 1) and texture coordinate. */
  datatype Vertex = Vertex(position: Vec3, normal: Vec3, tangent: Vec3, texCoord: Vec2)

  /** The default value of a vertex slot that was never written. */
  const EmptyVertex := Vertex(Zero3, Zero3, Zero3, Zero2)

  /** One render mesh: the whole declared buffers of a sub-mesh. */
  datatype DrawMesh = DrawMesh(name: Key, material: Material, vertices: seq<Vertex>, indices: seq<int>)

  /** The combined collision shape. */
  datatype Collision = Collision(vertices: seq<Vec3>, indices: seq<int>)

  function Positions(vs: seq<Vertex>): (r: seq<Vec3>)
    ensures |r| == |vs| && forall j :: 0 <= j < |vs| ==> r[j] == vs[j].position
  {
    seq(|vs|, j requires 0 <= j < |vs| => vs[j].position)
  }

  function Shift(xs: seq<int>, offset: int): (r: seq<int>)
    ensures |r| == |xs| && forall j :: 0 <= j < |xs| ==> r[j] == xs[j] + offset
  {
    seq(|xs|, j requires 0 <= j < |xs| => xs[j] + offset)
  }

  /**
    A sub-mesh entry: fixed-length vertex and index buffers (their lengths are
    the declared totals), the material, the collision flag and the two write
    cursors.
  */
  datatype SubMesh = SubMesh(
    vertices: seq<Vertex>,
    indices: seq<int>,
    material: Material,
    hasCollision: bool,
    currentVertex: nat,
    currentIndex: nat)
  {
    /**
      The cursors lie within the buffers, every written index names a written
      vertex, and the unwritten tails still hold default values.
    */
    ghost predicate Valid() {
      && currentVertex <= |vertices|
      && currentIndex <= |indices|
      && (forall j :: 0 <= j < currentIndex ==> 0 <= indices[j] < currentVertex)
      && (forall j :: currentIndex <= j < |indices| ==> indices[j] == 0)
      && (forall j :: currentVertex <= j < |vertices| ==> vertices[j] == EmptyVertex)
    }

    /** Vertices written so far. */
    function Written(): seq<Vertex>
      requires currentVertex <= |vertices|
    {
      vertices[..currentVertex]
    }

    /** Indices written so far. */
    function WrittenIndices(): seq<int>
      requires currentIndex <= |indices|
    {
      indices[..currentIndex]
    }

    /** `dv` more vertices and `di` more indices fit without writing past the buffers. */
    predicate HasRoom(dv: nat, di: nat) {
      currentVertex + dv <= |vertices| && currentIndex + di <= |indices|
    }

    /** Both buffers were filled exactly to their declared totals. */
    predicate Full() {
      currentVertex == |vertices| && currentIndex == |indices|
    }

    /** Becomes a render mesh: at least one vertex and one index were declared. */
    predicate Drawable() {
      |vertices| != 0 && |indices| != 0
    }

    /** Takes part in the collider: flagged for collision and at least one vertex declared. */
    predicate Collides() {
      hasCollision && |vertices| != 0
    }

    /** Writes three vertices sharing a normal and the triangle (0, 1, 2) over them, advancing both cursors by three. */
    function WithTriangle(a: Vec3, b: Vec3, c: Vec3, normal: Vec3, tangent: Vec3, uvA: Vec2, uvB: Vec2, uvC: Vec2): (r: SubMesh)
      requires HasRoom(3, 3)
      ensures |r.vertices| == |vertices| && |r.indices| == |indices|
      ensures r.material == material && r.hasCollision == hasCollision
      ensures r.currentVertex == currentVertex + 3 && r.currentIndex == currentIndex + 3
      ensures r.Written() == Written() + [Vertex(a, normal, tangent, uvA), Vertex(b, normal, tangent, uvB), Vertex(c, normal, tangent, uvC)]
      ensures r.WrittenIndices() == WrittenIndices() + [currentVertex, currentVertex + 1, currentVertex + 2]
      ensures Valid() ==> r.Valid()
    {
      var v := currentVertex;
      var i := currentIndex;
      var r := this.(
        vertices := vertices[v := Vertex(a, normal, tangent, uvA)][v + 1 := Vertex(b, normal, tangent, uvB)][v + 2 := Vertex(c, normal, tangent, uvC)],
        indices := indices[i := v][i + 1 := v + 1][i + 2 := v + 2],
        currentVertex := v + 3,
        currentIndex := i + 3);
      assert r.Written() == Written() + [Vertex(a, normal, tangent, uvA), Vertex(b, normal, tangent, uvB), Vertex(c, normal, tangent, uvC)];
      assert r.WrittenIndices() == WrittenIndices() + [v, v + 1, v + 2];
      r
    }

    /**
      Writes four vertices with their own normals and the triangles (0, 1, 2)
      and (0, 2, 3) over them, advancing the cursors by four and six.
    */
    function WithQuad(a: Vec3, b: Vec3, c: Vec3, d: Vec3,
                      normalA: Vec3, normalB: Vec3, normalC: Vec3, normalD: Vec3,
                      tangent: Vec3, uvA: Vec2, uvB: Vec2, uvC: Vec2, uvD: Vec2): (r: SubMesh)
      requires HasRoom(4, 6)
      ensures |r.vertices| == |vertices| && |r.indices| == |indices|
      ensures r.material == material && r.hasCollision == hasCollision
      ensures r.currentVertex == currentVertex + 4 && r.currentIndex == currentIndex + 6
      ensures r.Written() == Written() + QuadVertices(a, b, c, d, normalA, normalB, normalC, normalD, tangent, uvA, uvB, uvC, uvD)
      ensures r.WrittenIndices() == WrittenIndices() + QuadIndices(currentVertex)
      ensures Valid() ==> r.Valid()
    {
      var v := currentVertex;
      var i := currentIndex;
      var r := this.(
        vertices := vertices[v := Vertex(a, normalA, tangent, uvA)][v + 1 := Vertex(b, normalB, tangent, uvB)]
                            [v + 2 := Vertex(c, normalC, tangent, uvC)][v + 3 := Vertex(d, normalD, tangent, uvD)],
        indices := indices[i := v][i + 1 := v + 1][i + 2 := v + 2][i + 3 := v][i + 4 := v + 2][i + 5 := v + 3],
        currentVertex := v + 4,
        currentIndex := i + 6);
      assert r.Written() == Written() + QuadVertices(a, b, c, d, normalA, normalB, normalC, normalD, tangent, uvA, uvB, uvC, uvD);
      assert r.WrittenIndices() == WrittenIndices() + QuadIndices(v);
      r
    }
  }

  /** The four vertices of a quad, in corner order. */
  function QuadVertices(a: Vec3, b: Vec3, c: Vec3, d: Vec3,
                        normalA: Vec3, normalB: Vec3, normalC: Vec3, normalD: Vec3,
                        tangent: Vec3, uvA: Vec2, uvB: Vec2, uvC: Vec2, uvD: Vec2): seq<Vertex>
  {
    [Vertex(a, normalA, tangent, uvA), Vertex(b, normalB, tangent, uvB), Vertex(c, normalC, tangent, uvC), Vertex(d, normalD, tangent, uvD)]
  }

  /** A freshly declared entry: zeroed buffers of the given totals, cursors at zero. */
  function NewSubMesh(totalVertices: nat, totalIndices: nat, material: Material, hasCollision: bool): (s: SubMesh)
    ensures s.Valid() && s.Written() == [] && s.WrittenIndices() == []
    ensures |s.vertices| == totalVertices && |s.indices| == totalIndices
    ensures s.material == material && s.hasCollision == hasCollision
  {
    SubMesh(seq(totalVertices, _ => EmptyVertex), seq(totalIndices, _ => 0), material, hasCollision, 0, 0)
  }

  class MeshBuilder {
    /** The sub-mesh dictionary; `order` is its enumeration order (insertion order, as entries are only removed all at once). */
    var subMeshes: map<Key, SubMesh>
    var order: seq<Key>
    var isDirty: bool
    var castShadows: bool
    /** The render meshes of the last model build. */
    var meshes: seq<DrawMesh>
    /** The collider component, when one exists. */
    var collider: Option<Collision>

    ghost predicate Valid()
      reads this
    {
      TableValid(subMeshes, order)
    }

    constructor ()
      ensures Valid()
      ensures subMeshes == map[] && order == [] && meshes == [] && collider == None
      ensures !isDirty && castShadows
    {
      subMeshes := map[];
      order := [];
      isDirty := false;
      castShadows := true;
      meshes := [];
      collider := None;
    }

    /**
      Declares (or re-declares) entry `name` with zeroed buffers of the given
      totals and both cursors at zero. A new name goes to the end of the
      enumeration order; an existing one keeps its place.
    */
    method InitSubmesh(name: Key, totalVertices: nat, totalIndices: nat, material: Material, hasCollision: bool)
      requires Valid()
      modifies this
      ensures Valid()
      ensures subMeshes == old(subMeshes)[name := NewSubMesh(totalVertices, totalIndices, material, hasCollision)]
      ensures order == if name in old(subMeshes) then old(order) else old(order) + [name]
      ensures isDirty == old(isDirty) && castShadows == old(castShadows)
      ensures meshes == old(meshes) && collider == old(collider)
    {
      var declared := NewSubMesh(totalVertices, totalIndices, material, hasCollision);
      DeclareValid(subMeshes, order, name, declared);
      if name !in subMeshes {
        order := order + [name];
      }
      subMeshes := subMeshes[name := declared];
    }

    /**
      Appends one triangle (three vertices sharing a normal) to entry `name`, or
      does nothing when no such entry exists.
    */
    method AddTriangle(name: Key, a: Vec3, b: Vec3, c: Vec3, normal: Vec3, tangent: Vec3, uvA: Vec2, uvB: Vec2, uvC: Vec2)
      requires name in subMeshes ==> subMeshes[name].HasRoom(3, 3)
      modifies this
      ensures old(Valid()) ==> Valid()
      ensures subMeshes == if name in old(subMeshes)
        then old(subMeshes)[name := old(subMeshes[name]).WithTriangle(a, b, c, normal, tangent, uvA, uvB, uvC)]
        else old(subMeshes)
      ensures order == old(order) && isDirty == old(isDirty) && castShadows == old(castShadows)
      ensures meshes == old(meshes) && collider == old(collider)
    {
      if name !in subMeshes {
        return;
      }
      var updated := subMeshes[name].WithTriangle(a, b, c, normal, tangent, uvA, uvB, uvC);
      StoreValid(subMeshes, order, name, updated);
      subMeshes := subMeshes[name := updated];
    }

    /**
      Appends one quad (vertices a, b, c, d with their own normals; triangles
      a-b-c and a-c-d) to entry `name`, or does nothing when no such entry exists.
    */
    method AddQuad(name: Key, a: Vec3, b: Vec3, c: Vec3, d: Vec3,
                   normalA: Vec3, normalB: Vec3, normalC: Vec3, normalD: Vec3,
                   tangent: Vec3, uvA: Vec2, uvB: Vec2, uvC: Vec2, uvD: Vec2)
      requires name in subMeshes ==> subMeshes[name].HasRoom(4, 6)
      modifies this
      ensures old(Valid()) ==> Valid()
      ensures subMeshes == if name in old(subMeshes)
        then old(subMeshes)[name := old(subMeshes[name]).WithQuad(a, b, c, d, normalA, normalB, normalC, normalD, tangent, uvA, uvB, uvC, uvD)]
        else old(subMeshes)
      ensures order == old(order) && isDirty == old(isDirty) && castShadows == old(castShadows)
      ensures meshes == old(meshes) && collider == old(collider)
    {
      if name !in subMeshes {
        return;
      }
      var updated := subMeshes[name].WithQuad(a, b, c, d, normalA, normalB, normalC, normalD, tangent, uvA, uvB, uvC, uvD);
      StoreValid(subMeshes, order, name, updated);
      subMeshes := subMeshes[name := updated];
    }

    /** The single-normal quad overload: every corner gets the same normal. */
    method AddFlatQuad(name: Key, a: Vec3, b: Vec3, c: Vec3, d: Vec3, normal: Vec3,
                       tangent: Vec3, uvA: Vec2, uvB: Vec2, uvC: Vec2, uvD: Vec2)
      requires name in subMeshes ==> subMeshes[name].HasRoom(4, 6)
      modifies this
      ensures old(Valid()) ==> Valid()
      ensures subMeshes == if name in old(subMeshes)
        then old(subMeshes)[name := old(subMeshes[name]).WithQuad(a, b, c, d, normal, normal, normal, normal, tangent, uvA, uvB, uvC, uvD)]
        else old(subMeshes)
      ensures order == old(order) && isDirty == old(isDirty) && castShadows == old(castShadows)
      ensures meshes == old(meshes) && collider == old(collider)
    {
      AddQuad(name, a, b, c, d, normal, normal, normal, normal, tangent, uvA, uvB, uvC, uvD);
    }

    /** Destroys the collider and the render meshes and empties the sub-mesh table. */
    method Clear()
      modifies this
      ensures Valid()
      ensures subMeshes == map[] && order == [] && meshes == [] && collider == None
      ensures isDirty == old(isDirty) && castShadows == old(castShadows)
    {
      collider := None;
      meshes := [];
      subMeshes := map[];
      order := [];
    }

    /**
      The model build that follows the component's mesh generation: with an
      empty table nothing happens, otherwise the render meshes are rebuilt from
      the drawable entries in enumeration order.
    */
    method BuildModel()
      requires Valid()
      modifies this
      ensures Valid()
      ensures meshes == if |order| == 0 then old(meshes) else DrawList(subMeshes, order, |order|)
      ensures subMeshes == old(subMeshes) && order == old(order) && collider == old(collider)
      ensures isDirty == old(isDirty) && castShadows == old(castShadows)
    {
      if |subMeshes| == 0 {
        return;
      }
      var built: seq<DrawMesh> := [];
      var i := 0;
      while i < |order|
        invariant 0 <= i <= |order|
        invariant built == DrawList(subMeshes, order, i)
      {
        var s := subMeshes[order[i]];
        if |s.vertices| != 0 && |s.indices| != 0 {
          built := built + [DrawMesh(order[i], s.material, s.vertices, s.indices)];
        }
        i := i + 1;
      }
      meshes := built;
    }

    /**
      Combines every colliding entry into one collision shape; when no vertex is
      gathered no collider is created.
    */
    method BuildCollider()
      requires Valid()
      modifies this
      ensures Valid()
      ensures collider == if CollisionVertices(subMeshes, order, |order|) == [] then old(collider)
                          else Some(Collision(CollisionVertices(subMeshes, order, |order|), CollisionIndices(subMeshes, order, |order|)))
      ensures subMeshes == old(subMeshes) && order == old(order) && meshes == old(meshes)
      ensures isDirty == old(isDirty) && castShadows == old(castShadows)
    {
      var vertices: seq<Vec3> := [];
      var indices: seq<int> := [];
      var offset := 0;
      var i := 0;
      while i < |order|
        invariant 0 <= i <= |order|
        invariant vertices == CollisionVertices(subMeshes, order, i) && indices == CollisionIndices(subMeshes, order, i)
        invariant offset == VertexOffset(subMeshes, order, i)
      {
        var s := subMeshes[order[i]];
        if s.hasCollision && |s.vertices| != 0 {
          vertices := vertices + Positions(s.vertices);
          indices := indices + Shift(s.indices, offset);
          offset := offset + |s.vertices|;
        }
        i := i + 1;
      }
      if |vertices| == 0 {
        return;
      }
      collider := Some(Collision(vertices, indices));
    }

  }

  /**
    Every entry is well formed and `order` enumerates exactly the entries; as
    it is no longer than the table, it lists each entry once.
  */
  ghost predicate TableValid(subs: map<Key, SubMesh>, order: seq<Key>) {
    && (forall k :: k in subs ==> subs[k].Valid())
    && Enumerates(subs, order)
    && |order| == |subs|
  }

  /** Replacing an existing entry by a well-formed one keeps the table well formed. */
  lemma StoreValid(subs: map<Key, SubMesh>, order: seq<Key>, name: Key, s: SubMesh)
    requires name in subs
    ensures TableValid(subs, order) && s.Valid() ==> TableValid(subs[name := s], order)
  {
    var t := subs[name := s];
    assert t.Keys == subs.Keys;
    if TableValid(subs, order) && s.Valid() {
      assert Enumerates(t, order);
      assert |t| == |subs|;
    }
  }

  /**
    Declaring an entry keeps the table well formed: a new name is appended to
    the enumeration order, an existing one keeps its place.
  */
  lemma DeclareValid(subs: map<Key, SubMesh>, order: seq<Key>, name: Key, s: SubMesh)
    requires TableValid(subs, order) && s.Valid()
    ensures TableValid(subs[name := s], if name in subs then order else order + [name])
  {
    if name in subs {
      StoreValid(subs, order, name, s);
    } else {
      var t := subs[name := s];
      assert t.Keys == subs.Keys + {name};
      assert Enumerates(t, order + [name]);
    }
  }

  ghost predicate Enumerates(subs: map<Key, SubMesh>, order: seq<Key>) {
    forall k :: k in subs <==> k in order
  }

  /**
    The render meshes built from the first `n` entries in enumeration order:
    each drawable entry uploads its whole declared buffers, the rest are skipped.
  */
  function DrawList(subs: map<Key, SubMesh>, order: seq<Key>, n: nat): (r: seq<DrawMesh>)
    requires Enumerates(subs, order) && n <= |order|
    ensures |r| <= n
  {
    if n == 0 then []
    else
      var s := subs[order[n - 1]];
      if s.Drawable() then DrawList(subs, order, n - 1) + [DrawMesh(order[n - 1], s.material, s.vertices, s.indices)]
      else DrawList(subs, order, n - 1)
  }

  /**
    Every render mesh comes from a drawable entry and carries its whole buffers
    and material, and an entry yields a render mesh exactly when it is drawable.
  */
  lemma {:induction false} DrawListSkipsEmpty(subs: map<Key, SubMesh>, order: seq<Key>, n: nat)
    requires Enumerates(subs, order) && n <= |order|
    ensures forall d :: d in DrawList(subs, order, n) ==>
      && d.name in subs && subs[d.name].Drawable()
      && d.vertices == subs[d.name].vertices
      && d.indices == subs[d.name].indices
      && d.material == subs[d.name].material
    ensures forall j :: 0 <= j < n ==> (subs[order[j]].Drawable() <==> exists d :: d in DrawList(subs, order, n) && d.name == order[j])
  {
    if n > 0 {
      DrawListSkipsEmpty(subs, order, n - 1);
      var s := subs[order[n - 1]];
      if s.Drawable() {
        var d := DrawMesh(order[n - 1], s.material, s.vertices, s.indices);
        assert DrawList(subs, order, n) == DrawList(subs, order, n - 1) + [d];
        forall j | 0 <= j < n && subs[order[j]].Drawable()
          ensures exists e :: e in DrawList(subs, order, n) && e.name == order[j]
        {
          if j < n - 1 {
            var e :| e in DrawList(subs, order, n - 1) && e.name == order[j];
            assert e in DrawList(subs, order, n);
          } else {
            assert d in DrawList(subs, order, n);
          }
        }
      }
    }
  }

  /** The vertex offset after the first `n` entries: the declared vertex totals of the colliding ones. */
  function VertexOffset(subs: map<Key, SubMesh>, order: seq<Key>, n: nat): int
    requires Enumerates(subs, order) && n <= |order|
  {
    if n == 0 then 0
    else if subs[order[n - 1]].Collides() then VertexOffset(subs, order, n - 1) + |subs[order[n - 1]].vertices|
    else VertexOffset(subs, order, n - 1)
  }

  /** Collision positions gathered from the first `n` entries: every declared vertex of each colliding entry. */
  function CollisionVertices(subs: map<Key, SubMesh>, order: seq<Key>, n: nat): (r: seq<Vec3>)
    requires Enumerates(subs, order) && n <= |order|
    ensures |r| == VertexOffset(subs, order, n)
  {
    if n == 0 then []
    else if subs[order[n - 1]].Collides() then CollisionVertices(subs, order, n - 1) + Positions(subs[order[n - 1]].vertices)
    else CollisionVertices(subs, order, n - 1)
  }

  /** Collision indices gathered from the first `n` entries, each shifted by the running vertex offset. */
  function CollisionIndices(subs: map<Key, SubMesh>, order: seq<Key>, n: nat): seq<int>
    requires Enumerates(subs, order) && n <= |order|
  {
    if n == 0 then []
    else if subs[order[n - 1]].Collides() then
      CollisionIndices(subs, order, n - 1) + Shift(subs[order[n - 1]].indices, VertexOffset(subs, order, n - 1))
    else CollisionIndices(subs, order, n - 1)
  }

  /**
    The running offset counts exactly the gathered positions, so every gathered
    index names a gathered position.
  */
  lemma {:induction false} CollisionIndicesInRange(subs: map<Key, SubMesh>, order: seq<Key>, n: nat)
    requires TableValid(subs, order) && n <= |order|
    ensures |CollisionVertices(subs, order, n)| == VertexOffset(subs, order, n)
    ensures forall j :: 0 <= j < |CollisionIndices(subs, order, n)| ==>
      0 <= CollisionIndices(subs, order, n)[j] < |CollisionVertices(subs, order, n)|
  {
    if n > 0 {
      CollisionIndicesInRange(subs, order, n - 1);
      var s := subs[order[n - 1]];
      if s.Collides() {
        assert s.Valid();
        var prev := CollisionIndices(subs, order, n - 1);
        var offset := VertexOffset(subs, order, n - 1);
        var added := Shift(s.indices, offset);
        assert CollisionIndices(subs, order, n) == prev + added;
        forall j | 0 <= j < |CollisionIndices(subs, order, n)|
          ensures 0 <= CollisionIndices(subs, order, n)[j] < |CollisionVertices(subs, order, n)|
        {
          if j >= |prev| {
            var m := j - |prev|;
            assert added[m] == s.indices[m] + offset;
            if m >= s.currentIndex {
              assert s.indices[m] == 0;
            }
          }
        }
      }
    }
  }

  /** No collision position is gathered exactly when no entry among the first `n` collides. */
  lemma {:induction false} NoColliderIffNothingCollides(subs: map<Key, SubMesh>, order: seq<Key>, n: nat)
    requires Enumerates(subs, order) && n <= |order|
    ensures CollisionVertices(subs, order, n) == [] <==> forall j :: 0 <= j < n ==> !subs[order[j]].Collides()
  {
    if n > 0 {
      NoColliderIffNothingCollides(subs, order, n - 1);
      if subs[order[n - 1]].Collides() {
        assert |Positions(subs[order[n - 1]].vertices)| > 0;
      }
    }
  }

  /** Index pattern of a quad whose first vertex is `start`: triangles (0, 1, 2) and (0, 2, 3). */
  function QuadIndices(start: int): seq<int> {
    [start, start + 1, start + 2, start, start + 2, start + 3]
  }

  // ------------------------------------------------------------------ faces

  /**
    One primitive a generator writes into a sub-mesh: a triangle whose three
    corners share a normal (`AddTriangle`), or a quad with a normal per corner
    (`AddQuad`).
  */
  datatype Face =
    | Tri(a: Vec3, b: Vec3, c: Vec3, normal: Vec3, tangent: Vec3, uvA: Vec2, uvB: Vec2, uvC: Vec2)
    | Quad(a: Vec3, b: Vec3, c: Vec3, d: Vec3, normalA: Vec3, normalB: Vec3, normalC: Vec3, normalD: Vec3,
           tangent: Vec3, uvA: Vec2, uvB: Vec2, uvC: Vec2, uvD: Vec2)
  {
    function VertexCount(): nat { if Tri? then 3 else 4 }
    function IndexCount(): nat { if Tri? then 3 else 6 }

    /** The vertices the face appends. */
    function Vertices(): (r: seq<Vertex>)
      ensures |r| == VertexCount()
    {
      match this
      case Tri(a, b, c, n, t, uvA, uvB, uvC) => [Vertex(a, n, t, uvA), Vertex(b, n, t, uvB), Vertex(c, n, t, uvC)]
      case Quad(a, b, c, d, nA, nB, nC, nD, t, uvA, uvB, uvC, uvD) => QuadVertices(a, b, c, d, nA, nB, nC, nD, t, uvA, uvB, uvC, uvD)
    }

    /** The indices the face appends when its first vertex lands at `start`. */
    function Indices(start: int): (r: seq<int>)
      ensures |r| == IndexCount()
      ensures forall j :: 0 <= j < |r| ==> start <= r[j] < start + VertexCount()
    {
      if Tri? then [start, start + 1, start + 2] else QuadIndices(start)
    }
  }

  /** A face written with the single-normal quad overload. */
  function FlatQuad(a: Vec3, b: Vec3, c: Vec3, d: Vec3, normal: Vec3, tangent: Vec3, uvA: Vec2, uvB: Vec2, uvC: Vec2, uvD: Vec2): Face {
    Quad(a, b, c, d, normal, normal, normal, normal, tangent, uvA, uvB, uvC, uvD)
  }

  /** Total vertices of a face list. */
  function VertexCount(fs: seq<Face>): nat {
    if fs == [] then 0 else VertexCount(fs[..|fs| - 1]) + fs[|fs| - 1].VertexCount()
  }

  /** Total indices of a face list. */
  function IndexCount(fs: seq<Face>): nat {
    if fs == [] then 0 else IndexCount(fs[..|fs| - 1]) + fs[|fs| - 1].IndexCount()
  }

  /** The vertex buffer contents a face list produces, face after face. */
  function FacesVertices(fs: seq<Face>): (r: seq<Vertex>)
    ensures |r| == VertexCount(fs)
  {
    if fs == [] then [] else FacesVertices(fs[..|fs| - 1]) + fs[|fs| - 1].Vertices()
  }

  /**
    The index buffer contents a face list produces: each face's pattern,
    offset by the vertices written before it, so every index names one of the
    list's own vertices.
  */
  function FacesIndices(fs: seq<Face>): (r: seq<int>)
    ensures |r| == IndexCount(fs)
    ensures forall j :: 0 <= j < |r| ==> 0 <= r[j] < VertexCount(fs)
  {
    if fs == [] then []
    else
      var init := fs[..|fs| - 1];
      var prev := FacesIndices(init);
      var last := fs[|fs| - 1].Indices(VertexCount(init));
      assert forall j :: 0 <= j < |prev| + |last| ==> 0 <= (prev + last)[j] < VertexCount(fs) by {
        forall j | 0 <= j < |prev| + |last|
          ensures 0 <= (prev + last)[j] < VertexCount(fs)
        {
          if j >= |prev| {
            assert (prev + last)[j] == last[j - |prev|];
          }
        }
      }
      prev + last
  }

  /** A list of n quads takes 4n vertices and 6n indices. */
  lemma {:induction false} QuadCounts(fs: seq<Face>)
    requires forall j :: 0 <= j < |fs| ==> fs[j].Quad?
    ensures VertexCount(fs) == 4 * |fs| && IndexCount(fs) == 6 * |fs|
  {
    if fs != [] {
      QuadCounts(fs[..|fs| - 1]);
    }
  }

  /** A list of n triangles takes 3n vertices and 3n indices. */
  lemma {:induction false} TriCounts(fs: seq<Face>)
    requires forall j :: 0 <= j < |fs| ==> fs[j].Tri?
    ensures VertexCount(fs) == 3 * |fs| && IndexCount(fs) == 3 * |fs|
  {
    if fs != [] {
      TriCounts(fs[..|fs| - 1]);
    }
  }

  /** Counts add up over concatenation. */
  lemma {:induction false} CountsAppend(fs: seq<Face>, gs: seq<Face>)
    ensures VertexCount(fs + gs) == VertexCount(fs) + VertexCount(gs)
    ensures IndexCount(fs + gs) == IndexCount(fs) + IndexCount(gs)
    decreases |gs|
  {
    if gs != [] {
      assert (fs + gs)[..|fs + gs| - 1] == fs + gs[..|gs| - 1];
      CountsAppend(fs, gs[..|gs| - 1]);
    } else {
      assert fs + gs == fs;
    }
  }

  /** Entry `s` is well formed and holds exactly the faces `fs`, written in order. */
  ghost predicate Holds(s: SubMesh, fs: seq<Face>) {
    && s.Valid()
    && s.currentVertex == VertexCount(fs)
    && s.currentIndex == IndexCount(fs)
    && s.Written() == FacesVertices(fs)
    && s.WrittenIndices() == FacesIndices(fs)
  }

  /** Writing one face with the matching builder call. */
  function WithFace(s: SubMesh, f: Face): (r: SubMesh)
    requires s.HasRoom(f.VertexCount(), f.IndexCount())
    ensures |r.vertices| == |s.vertices| && |r.indices| == |s.indices|
    ensures r.material == s.material && r.hasCollision == s.hasCollision
    ensures r.currentVertex == s.currentVertex + f.VertexCount() && r.currentIndex == s.currentIndex + f.IndexCount()
    ensures r.Written() == s.Written() + f.Vertices()
    ensures r.WrittenIndices() == s.WrittenIndices() + f.Indices(s.currentVertex)
    ensures s.Valid() ==> r.Valid()
  {
    match f
    case Tri(a, b, c, n, t, uvA, uvB, uvC) => s.WithTriangle(a, b, c, n, t, uvA, uvB, uvC)
    case Quad(a, b, c, d, nA, nB, nC, nD, t, uvA, uvB, uvC, uvD) => s.WithQuad(a, b, c, d, nA, nB, nC, nD, t, uvA, uvB, uvC, uvD)
  }

  /**
    Writing the last face of `fs` after the contents of the faces before it
    leaves the contents of `fs`: its vertices follow theirs, and its indices
    are offset by their vertex count.
  */
  lemma AppendFace(s: SubMesh, fs: seq<Face>)
    requires |fs| > 0 && s.HasRoom(fs[|fs| - 1].VertexCount(), fs[|fs| - 1].IndexCount())
    requires s.currentVertex == VertexCount(fs[..|fs| - 1])
    requires s.Written() == FacesVertices(fs[..|fs| - 1]) && s.WrittenIndices() == FacesIndices(fs[..|fs| - 1])
    ensures WithFace(s, fs[|fs| - 1]).Written() == FacesVertices(fs)
    ensures WithFace(s, fs[|fs| - 1]).WrittenIndices() == FacesIndices(fs)
  {
  }

  /** A fresh entry holds no faces. */
  lemma NewHoldsNothing(totalVertices: nat, totalIndices: nat, material: Material, hasCollision: bool)
    ensures Holds(NewSubMesh(totalVertices, totalIndices, material, hasCollision), [])
  {
  }

  /** The entry holding exactly the faces `fs`, declared with exactly their vertex and index totals. */
  function Filled(fs: seq<Face>, material: Material, hasCollision: bool): (s: SubMesh)
    ensures Holds(s, fs) && s.Full()
    ensures s.material == material && s.hasCollision == hasCollision
  {
    SubMesh(FacesVertices(fs), FacesIndices(fs), material, hasCollision, VertexCount(fs), IndexCount(fs))
  }

  /** An entry that holds `fs` and is full is exactly the filled entry: its buffers were declared to the exact totals. */
  lemma FullHolds(s: SubMesh, fs: seq<Face>)
    requires Holds(s, fs) && s.Full()
    ensures s == Filled(fs, s.material, s.hasCollision)
  {
    assert s.vertices == s.Written();
    assert s.indices == s.WrittenIndices();
  }

  /**
    Writes face `f` to entry `name` with `AddTriangle` or `AddQuad`; `name`
    must be declared with room for the face.
  */
  method Emit(builder: MeshBuilder, name: Key, f: Face)
    requires name in builder.subMeshes
    requires builder.subMeshes[name].HasRoom(f.VertexCount(), f.IndexCount())
    modifies builder
    ensures old(builder.Valid()) ==> builder.Valid()
    ensures builder.subMeshes == old(builder.subMeshes)[name := WithFace(old(builder.subMeshes[name]), f)]
    ensures builder.order == old(builder.order) && builder.isDirty == old(builder.isDirty)
    ensures builder.castShadows == old(builder.castShadows)
    ensures builder.meshes == old(builder.meshes) && builder.collider == old(builder.collider)
  {
    match f
    case Tri(a, b, c, n, t, uvA, uvB, uvC) =>
      builder.AddTriangle(name, a, b, c, n, t, uvA, uvB, uvC);
    case Quad(a, b, c, d, nA, nB, nC, nD, t, uvA, uvB, uvC, uvD) =>
      builder.AddQuad(name, a, b, c, d, nA, nB, nC, nD, t, uvA, uvB, uvC, uvD);
  }

  /** A prefix of a face list takes no more vertices or indices than the whole list. */
  lemma {:induction false} CountsPrefix(fs: seq<Face>, k: nat)
    requires k <= |fs|
    ensures VertexCount(fs[..k]) <= VertexCount(fs) && IndexCount(fs[..k]) <= IndexCount(fs)
    decreases |fs|
  {
    if k < |fs| {
      assert fs[..|fs| - 1][..k] == fs[..k];
      CountsPrefix(fs[..|fs| - 1], k);
    } else {
      assert fs[..k] == fs;
    }
  }

  /**
    The entry a generator declares for `faces` (with exactly their vertex and
    index totals) once the first i of them are written in order.
  */
  ghost function Partial(faces: seq<Face>, i: nat, material: Material, hasCollision: bool): (s: SubMesh)
    requires i <= |faces|
    ensures |s.vertices| == VertexCount(faces) && |s.indices| == IndexCount(faces)
    ensures s.currentVertex == VertexCount(faces[..i]) && s.currentIndex == IndexCount(faces[..i])
    ensures s.currentVertex <= |s.vertices| && s.currentIndex <= |s.indices|
    decreases i, 1
  {
    if i == 0 then
      assert faces[..0] == [];
      NewSubMesh(VertexCount(faces), IndexCount(faces), material, hasCollision)
    else
      AfterFace(faces, i, material, hasCollision)
  }

  /** `stages[j]` is the entry for `faces` once the first j of them are written. */
  ghost predicate Stages(stages: seq<SubMesh>, faces: seq<Face>, material: Material, hasCollision: bool) {
    && |stages| == |faces| + 1
    && forall j {:trigger Partial(faces, j, material, hasCollision)} ::
         0 <= j <= |faces| ==> stages[j] == Partial(faces, j, material, hasCollision)
  }

  /** The stages of writing `faces` one after another. */
  ghost function StagesOf(faces: seq<Face>, material: Material, hasCollision: bool): (r: seq<SubMesh>)
    ensures Stages(r, faces, material, hasCollision)
  {
    seq(|faces| + 1, j requires 0 <= j <= |faces| => Partial(faces, j, material, hasCollision))
  }

  /** The first stage is the freshly declared entry and the last one the filled entry. */
  lemma StagesEnds(stages: seq<SubMesh>, faces: seq<Face>, material: Material, hasCollision: bool)
    requires Stages(stages, faces, material, hasCollision)
    ensures stages[0] == NewSubMesh(VertexCount(faces), IndexCount(faces), material, hasCollision)
    ensures stages[|faces|] == Filled(faces, material, hasCollision)
  {
    assert stages[0] == Partial(faces, 0, material, hasCollision);
    assert stages[|faces|] == Partial(faces, |faces|, material, hasCollision);
    PartialComplete(faces, material, hasCollision);
  }

  /** The entry holding the first i - 1 faces with face i - 1 written after them. */
  ghost function AfterFace(faces: seq<Face>, i: nat, material: Material, hasCollision: bool): (s: SubMesh)
    requires 0 < i <= |faces|
    ensures |s.vertices| == VertexCount(faces) && |s.indices| == IndexCount(faces)
    ensures s.currentVertex == VertexCount(faces[..i]) && s.currentIndex == IndexCount(faces[..i])
    ensures s.currentVertex <= |s.vertices| && s.currentIndex <= |s.indices|
    decreases i, 0
  {
    var prev := Partial(faces, i - 1, material, hasCollision);
    CountsPrefix(faces, i);
    assert faces[..i][..i - 1] == faces[..i - 1];
    WithFace(prev, faces[i - 1])
  }

  /** Writing face i onto the entry that holds the first i faces gives the entry that holds the first i + 1. */
  lemma PartialStep(faces: seq<Face>, i: nat, material: Material, hasCollision: bool)
    requires i < |faces|
    ensures Partial(faces, i, material, hasCollision).HasRoom(faces[i].VertexCount(), faces[i].IndexCount())
    ensures Partial(faces, i + 1, material, hasCollision) == WithFace(Partial(faces, i, material, hasCollision), faces[i])
  {
    CountsPrefix(faces, i + 1);
    assert faces[..i + 1][..i] == faces[..i];
    assert Partial(faces, i + 1, material, hasCollision) == AfterFace(faces, i + 1, material, hasCollision);
  }

  /** Writing faces keeps the entry's material and collision flag. */
  lemma {:induction false} PartialKeeps(faces: seq<Face>, i: nat, material: Material, hasCollision: bool)
    requires i <= |faces|
    ensures Partial(faces, i, material, hasCollision).material == material
    ensures Partial(faces, i, material, hasCollision).hasCollision == hasCollision
  {
    if i > 0 {
      PartialKeeps(faces, i - 1, material, hasCollision);
      PartialStep(faces, i - 1, material, hasCollision);
    }
  }

  /** The entry is well formed after any number of faces. */
  lemma {:induction false} PartialValid(faces: seq<Face>, i: nat, material: Material, hasCollision: bool)
    requires i <= |faces|
    ensures Partial(faces, i, material, hasCollision).Valid()
  {
    if i > 0 {
      PartialValid(faces, i - 1, material, hasCollision);
      PartialStep(faces, i - 1, material, hasCollision);
    }
  }

  /** After i faces the written parts of the buffers are exactly the contents of the first i faces. */
  lemma {:induction false} PartialWritten(faces: seq<Face>, i: nat, material: Material, hasCollision: bool)
    requires i <= |faces|
    ensures Partial(faces, i, material, hasCollision).Written() == FacesVertices(faces[..i])
    ensures Partial(faces, i, material, hasCollision).WrittenIndices() == FacesIndices(faces[..i])
  {
    if i == 0 {
      assert faces[..0] == [];
    } else {
      PartialWritten(faces, i - 1, material, hasCollision);
      PartialStep(faces, i - 1, material, hasCollision);
      CountsPrefix(faces, i);
      assert faces[..i][..i - 1] == faces[..i - 1];
      AppendFace(Partial(faces, i - 1, material, hasCollision), faces[..i]);
    }
  }

  /** After i faces the entry holds exactly the first i of them. */
  lemma PartialHolds(faces: seq<Face>, i: nat, material: Material, hasCollision: bool)
    requires i <= |faces|
    ensures Holds(Partial(faces, i, material, hasCollision), faces[..i])
  {
    PartialValid(faces, i, material, hasCollision);
    PartialWritten(faces, i, material, hasCollision);
  }

  /** Once every face is written, the entry is exactly the filled entry: declared to the exact totals, nothing is left over. */
  lemma PartialComplete(faces: seq<Face>, material: Material, hasCollision: bool)
    ensures Partial(faces, |faces|, material, hasCollision) == Filled(faces, material, hasCollision)
  {
    PartialHolds(faces, |faces|, material, hasCollision);
    PartialKeeps(faces, |faces|, material, hasCollision);
    assert faces[..|faces|] == faces;
    FullHolds(Partial(faces, |faces|, material, hasCollision), faces);
  }

  /**
    Writes the next face of `faces` to entry `name`. As the entry was declared
    with the totals of all of `faces`, there is always room for it; the other
    entries stay as they are in `table`.
  */
  method EmitNext(builder: MeshBuilder, name: Key, ghost table: map<Key, SubMesh>, ghost order: seq<Key>,
                  ghost faces: seq<Face>, ghost i: nat, f: Face, ghost material: Material, ghost hasCollision: bool)
    requires name in table && builder.order == order
    requires i < |faces| && f == faces[i]
    requires builder.subMeshes == table[name := Partial(faces, i, material, hasCollision)]
    modifies builder
    ensures builder.subMeshes == table[name := Partial(faces, i + 1, material, hasCollision)]
    ensures builder.order == order && builder.isDirty == old(builder.isDirty)
    ensures builder.castShadows == old(builder.castShadows)
    ensures builder.meshes == old(builder.meshes) && builder.collider == old(builder.collider)
  {
    ghost var before := Partial(faces, i, material, hasCollision);
    ghost var after := Partial(faces, i + 1, material, hasCollision);
    PartialStep(faces, i, material, hasCollision);
    Emit(builder, name, f);
    UpdateTwice(table, name, before, after);
  }

  /**
    `EmitNext` for a generator that tracks its entry through the stages of
    `faces`: after the call the entry is the next stage.
  */
  method EmitStaged(builder: MeshBuilder, name: Key, ghost table: map<Key, SubMesh>, ghost order: seq<Key>,
                    ghost faces: seq<Face>, ghost stages: seq<SubMesh>, ghost i: nat, f: Face,
                    ghost material: Material, ghost hasCollision: bool)
    requires name in table && builder.order == order && Stages(stages, faces, material, hasCollision)
    requires i < |faces| && f == faces[i]
    requires builder.subMeshes == table[name := stages[i]]
    modifies builder
    ensures i + 1 < |stages| && builder.subMeshes == table[name := stages[i + 1]]
    ensures builder.order == order && builder.isDirty == old(builder.isDirty)
    ensures builder.castShadows == old(builder.castShadows)
    ensures builder.meshes == old(builder.meshes) && builder.collider == old(builder.collider)
  {
    assert stages[i] == Partial(faces, i, material, hasCollision);
    EmitNext(builder, name, table, order, faces, i, f, material, hasCollision);
    assert stages[i + 1] == Partial(faces, i + 1, material, hasCollision);
  }

  /**
    Writing face t of group j of a grouped face list: the entry moves from the
    stage before that face's slot to the stage after it.
  */
  method EmitGrouped(builder: MeshBuilder, name: Key, ghost table: map<Key, SubMesh>, ghost order: seq<Key>,
                     ghost groups: seq<seq<Face>>, ghost stages: seq<SubMesh>, ghost j: nat, ghost w: nat, ghost t: nat,
                     f: Face, ghost material: Material, ghost hasCollision: bool)
    requires name in table && builder.order == order && Stages(stages, Flatten(groups), material, hasCollision)
    requires j < |groups| && t < |groups[j]| && f == groups[j][t]
    requires w == |Flatten(groups[..j])| && w + t < |stages| && builder.subMeshes == table[name := stages[w + t]]
    modifies builder
    ensures w + t + 1 < |stages| && builder.subMeshes == table[name := stages[w + t + 1]]
    ensures builder.order == order && builder.isDirty == old(builder.isDirty)
    ensures builder.castShadows == old(builder.castShadows)
    ensures builder.meshes == old(builder.meshes) && builder.collider == old(builder.collider)
  {
    FlattenGroup(groups, j);
    assert Flatten(groups)[w + t] == Flatten(groups)[w..w + |groups[j]|][t];
    EmitStaged(builder, name, table, order, Flatten(groups), stages, w + t, f, material, hasCollision);
  }

  /** An entry just declared with the totals of `faces` is the entry with none of them written. */
  lemma Declared(table: map<Key, SubMesh>, name: Key, faces: seq<Face>, material: Material, hasCollision: bool)
    requires name in table && table[name] == NewSubMesh(VertexCount(faces), IndexCount(faces), material, hasCollision)
    ensures table == table[name := Partial(faces, 0, material, hasCollision)]
  {
    assert Partial(faces, 0, material, hasCollision) == table[name];
  }

  /**
    Once all of `faces` are written, entry `name` of a well-formed table is
    the filled entry and the table is still well formed.
  */
  lemma FinishEntry(table: map<Key, SubMesh>, order: seq<Key>, name: Key, faces: seq<Face>, material: Material, hasCollision: bool)
    requires TableValid(table, order) && name in table
    ensures Partial(faces, |faces|, material, hasCollision) == Filled(faces, material, hasCollision)
    ensures TableValid(table[name := Filled(faces, material, hasCollision)], order)
  {
    PartialComplete(faces, material, hasCollision);
    StoreValid(table, order, name, Filled(faces, material, hasCollision));
  }

  /** Replacing an entry twice is replacing it once with the second value. */
  lemma UpdateTwice(table: map<Key, SubMesh>, name: Key, first: SubMesh, second: SubMesh)
    ensures table[name := first][name := second] == table[name := second]
  {
  }

  /** The faces of a list of groups, group after group. */
  function Flatten(groups: seq<seq<Face>>): (r: seq<Face>)
  {
    if |groups| == 0 then [] else Flatten(groups[..|groups| - 1]) + groups[|groups| - 1]
  }

  /** Flattening one more group appends its faces. */
  lemma FlattenNext(groups: seq<seq<Face>>, i: int)
    requires 0 <= i < |groups|
    ensures Flatten(groups[..i + 1]) == Flatten(groups[..i]) + groups[i]
  {
    assert groups[..i + 1][..i] == groups[..i];
  }

  /** The faces of the first i groups begin the faces of the first j, for i <= j. */
  lemma {:induction false} FlattenPrefix(groups: seq<seq<Face>>, i: int, j: int)
    requires 0 <= i <= j <= |groups|
    ensures |Flatten(groups[..i])| <= |Flatten(groups[..j])|
    ensures Flatten(groups[..j])[..|Flatten(groups[..i])|] == Flatten(groups[..i])
    decreases j
  {
    if i < j {
      FlattenPrefix(groups, i, j - 1);
      FlattenNext(groups, j - 1);
      var a := Flatten(groups[..i]);
      var b := Flatten(groups[..j - 1]);
      assert Flatten(groups[..j])[..|b|] == b;
      assert Flatten(groups[..j])[..|a|] == b[..|a|];
    }
  }

  /** Group i occupies the slots from the length of the first i groups' faces to that of the first i + 1. */
  lemma FlattenGroup(groups: seq<seq<Face>>, i: int)
    requires 0 <= i < |groups|
    ensures |Flatten(groups[..i])| + |groups[i]| == |Flatten(groups[..i + 1])| <= |Flatten(groups)|
    ensures Flatten(groups)[|Flatten(groups[..i])|..|Flatten(groups[..i + 1])|] == groups[i]
  {
    FlattenNext(groups, i);
    FlattenPrefix(groups, i + 1, |groups|);
    assert groups[..|groups|] == groups;
    var a := Flatten(groups[..i]);
    var b := Flatten(groups[..i + 1]);
    assert Flatten(groups)[..|b|] == b;
    assert Flatten(groups)[|a|..|b|] == b[|a|..];
  }

  /** Groups of k faces each flatten to k faces per group. */
  lemma {:induction false} FlattenLength(groups: seq<seq<Face>>, k: nat)
    requires forall g :: 0 <= g < |groups| ==> |groups[g]| == k
    ensures |Flatten(groups)| == k * |groups|
  {
    if |groups| > 0 {
      FlattenLength(groups[..|groups| - 1], k);
    }
  }

  /** With k faces per group, group i occupies slots k*i up to k*i + k of the flattened list. */
  lemma {:induction false} FlattenSlot(groups: seq<seq<Face>>, k: nat, i: int)
    requires forall g :: 0 <= g < |groups| ==> |groups[g]| == k
    requires 0 <= i < |groups|
    ensures |Flatten(groups)| == k * |groups|
    ensures k * i + k <= |Flatten(groups)| && Flatten(groups)[k * i .. k * i + k] == groups[i]
  {
    FlattenLength(groups, k);
    var init := groups[..|groups| - 1];
    FlattenLength(init, k);
    assert k * (|groups| - 1) + k == k * |groups|;
    if i < |groups| - 1 {
      FlattenSlot(init, k, i);
      assert k * i + k <= k * (|groups| - 1) by {
        assert k * (|groups| - 1) - (k * i + k) == k * (|groups| - 2 - i);
      }
      assert Flatten(groups)[k * i .. k * i + k] == Flatten(init)[k * i .. k * i + k];
    } else {
      assert Flatten(groups)[k * i ..] == groups[i];
    }
  }

  /** Flattening groups of quads gives a list of quads. */
  lemma {:induction false} FlattenQuads(groups: seq<seq<Face>>)
    requires forall g, j :: 0 <= g < |groups| && 0 <= j < |groups[g]| ==> groups[g][j].Quad?
    ensures forall j :: 0 <= j < |Flatten(groups)| ==> Flatten(groups)[j].Quad?
  {
    if |groups| > 0 {
      var init := groups[..|groups| - 1];
      FlattenQuads(init);
      var fs := Flatten(groups);
      forall j | 0 <= j < |fs|
        ensures fs[j].Quad?
      {
        if j >= |Flatten(init)| {
          assert fs[j] == groups[|groups| - 1][j - |Flatten(init)|];
        }
      }
    }
  }
}
