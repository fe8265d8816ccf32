/**
  The older revision of the intersection component. Its circle is built as
  in the current revision; its rectangle is simpler: the road is a single
  quad, and the sidewalk is four strips of two quads each (a top and a curb
  face) around the road, with no exits and no corner caps.
*/
module LegacyIntersection {
  import opened Wrappers
  import opened Geometry
  import opened Meshes
  import Road
  import Sidewalk
  import opened IntersectionParts
  import opened RectangleIntersection
  import opened CircleIntersection

  /**
    The settings the older revision's builds read: the materials, the shape,
    the rectangle's width and length, the circle, and the sidewalk's width,
    height and texture repeat. Its exits also carry a sidewalk flag, which
    no build reads.
  */
  datatype LegacySettings = LegacySettings(roadMaterial: Option<Material>, sidewalkMaterial: Option<Material>, shape: Shape,
                                           width: real, length: real, circle: Circle, curb: Curb)
  {
    /** The circle's precision is within its clamp. */
    predicate Valid() {
      circle.Valid()
    }
  }

  /** A new component: a 500 by 500 rectangle, the default circle, and a sidewalk 50 wide and 5 high with texture repeat 100. */
  const LegacyDefaults := LegacySettings(None, None, RectangleShape, 500.0, 500.0, DefaultCircle, Curb(50.0, 5.0, 100.0))

  /** The rectangle of the older revision: its width and length, without exits. */
  function Plain(st: LegacySettings): Rectangle {
    Rectangle(st.width, st.length, NoExit)
  }

  // ------------------------------------------------------------------ road

  /**
    The older rectangle road: one quad over the four corners, from south-east
    round to south-west, facing up, its tangent along the west edge.
  */
  function RoadQuad(st: LegacySettings, b: Basis, m: Maths): Face {
    var p := RoadCorners(Plain(st), b);
    FlatQuad(p.se, p.ne, p.nw, p.sw, b.up, m.normal(Sub(p.nw, p.sw)), Vec2(0.0, 0.0), Vec2(0.0, 1.0), Vec2(1.0, 1.0), Vec2(1.0, 0.0))
  }

  /** The older rectangle road's one quad takes exactly the 4 vertices and 6 indices declared for it. */
  lemma RoadQuadCapacity(st: LegacySettings, b: Basis, m: Maths)
    ensures VertexCount([RoadQuad(st, b, m)]) == 4 && IndexCount([RoadQuad(st, b, m)]) == 6
  {
    QuadCounts([RoadQuad(st, b, m)]);
  }

  /** The older `BuildRectangleRoad`: declares 4 vertices and 6 indices, colliding, and writes the one quad. */
  method BuildRectangleRoad(builder: MeshBuilder, st: LegacySettings, b: Basis, m: Maths)
    requires builder.Valid()
    modifies builder
    ensures builder.Valid()
    ensures builder.subMeshes == old(builder.subMeshes)[IntersectionRoadKey :=
              Filled([RoadQuad(st, b, m)], st.roadMaterial.GetOr(Road.DefaultRoadMaterial), true)]
    ensures builder.order == if IntersectionRoadKey in old(builder.subMeshes) then old(builder.order)
                             else old(builder.order) + [IntersectionRoadKey]
    ensures builder.isDirty == old(builder.isDirty) && builder.castShadows == old(builder.castShadows)
    ensures builder.meshes == old(builder.meshes) && builder.collider == old(builder.collider)
  {
    var material := st.roadMaterial.GetOr(Road.DefaultRoadMaterial);
    ghost var faces := [RoadQuad(st, b, m)];
    RoadQuadCapacity(st, b, m);
    builder.InitSubmesh(IntersectionRoadKey, 4, 6, material, true);
    ghost var table := builder.subMeshes;
    Declared(table, IntersectionRoadKey, faces, material, true);
    var p := RoadCorners(Plain(st), b);
    var tangent := m.normal(Sub(p.nw, p.sw));
    var quad := FlatQuad(p.se, p.ne, p.nw, p.sw, b.up, tangent, Vec2(0.0, 0.0), Vec2(0.0, 1.0), Vec2(1.0, 1.0), Vec2(1.0, 0.0));
    EmitNext(builder, IntersectionRoadKey, table, builder.order, faces, 0, quad, material, true);
    FinishEntry(table, builder.order, IntersectionRoadKey, faces, material, true);
    UpdateTwice(old(builder.subMeshes), IntersectionRoadKey, table[IntersectionRoadKey], Partial(faces, 1, material, true));
  }

  // -------------------------------------------------------------- sidewalk

  /**
    The older `AddSidewalkStrip`: the top, from the outer edge at the curb's
    height to the inner edge at that height, facing up; then the curb face,
    from the raised inner edge down to the road's edge, facing the road.
    Both take the strip's direction as their tangent.
  */
  function Strip(start: Vec3, end: Vec3, outward: Vec3, curb: Curb, b: Basis, m: Maths): (r: seq<Face>)
    ensures |r| == 2 && r[0].Quad? && r[1].Quad?
  {
    var forward := m.normal(Sub(end, start));
    var o0 := Add(start, Scale(outward, curb.width));
    var o1 := Add(end, Scale(outward, curb.width));
    var t0 := Raise(start, b.up, curb.height);
    var t1 := Raise(end, b.up, curb.height);
    var ot0 := Raise(o0, b.up, curb.height);
    var ot1 := Raise(o1, b.up, curb.height);
    [FlatQuad(ot0, ot1, t1, t0, b.up, forward, Vec2(0.0, 0.0), Vec2(0.0, 1.0), Vec2(1.0, 1.0), Vec2(1.0, 0.0)),
     FlatQuad(t0, t1, end, start, Neg(outward), forward, Vec2(0.0, 0.0), Vec2(1.0, 0.0), Vec2(1.0, 1.0), Vec2(0.0, 1.0))]
  }

  /** The four strips in the order they are written: south, east, north and west, each running anticlockwise seen from above. */
  function Strips(st: LegacySettings, b: Basis, m: Maths): (r: seq<seq<Face>>)
    ensures |r| == 4
  {
    var p := RoadCorners(Plain(st), b);
    [Strip(p.sw, p.se, Neg(b.forward), st.curb, b, m),
     Strip(p.se, p.ne, b.right, st.curb, b, m),
     Strip(p.ne, p.nw, b.forward, st.curb, b, m),
     Strip(p.nw, p.sw, Neg(b.right), st.curb, b, m)]
  }

  /** The older rectangle sidewalk's quads, strip after strip. */
  function StripFacesAll(st: LegacySettings, b: Basis, m: Maths): seq<Face> {
    Flatten(Strips(st, b, m))
  }

  /** The older rectangle sidewalk is eight quads, which take exactly the 32 vertices and 48 indices declared for them. */
  lemma StripsCapacity(st: LegacySettings, b: Basis, m: Maths)
    ensures |StripFacesAll(st, b, m)| == 8
    ensures VertexCount(StripFacesAll(st, b, m)) == 32 && IndexCount(StripFacesAll(st, b, m)) == 48
  {
    var groups: seq<seq<Face>> := Strips(st, b, m);
    FlattenGroup(groups, 0);
    FlattenGroup(groups, 1);
    FlattenGroup(groups, 2);
    FlattenGroup(groups, 3);
    assert groups[..0] == [] && groups[..4] == groups;
    forall g: int, j: int | 0 <= g < |groups| && 0 <= j < |groups[g]|
      ensures groups[g][j].Quad?
    {
    }
    FlattenQuads(groups);
    QuadCounts(Flatten(groups));
  }

  /**
    The strips close up around the road: each one ends where the next one
    starts, the last where the first starts, and every curb face stands on
    an edge of the road quad.
  */
  lemma StripsRingRoad(st: LegacySettings, b: Basis, m: Maths)
    ensures var s := Strips(st, b, m);
            var road := RoadQuad(st, b, m);
            && s[0][1].c == s[1][1].d && s[1][1].c == s[2][1].d && s[2][1].c == s[3][1].d && s[3][1].c == s[0][1].d
            && s[0][1].d == road.d && s[0][1].c == road.a && s[1][1].c == road.b && s[2][1].c == road.c
  {
  }

  /** The older `BuildRectangleSidewalk`: declares 32 vertices and 48 indices, colliding, and writes the four strips. */
  method BuildRectangleSidewalk(builder: MeshBuilder, st: LegacySettings, b: Basis, m: Maths)
    requires builder.Valid()
    modifies builder
    ensures builder.Valid()
    ensures builder.subMeshes == old(builder.subMeshes)[IntersectionSidewalkKey :=
              Filled(StripFacesAll(st, b, m), st.sidewalkMaterial.GetOr(Sidewalk.DefaultSidewalkMaterial), true)]
    ensures builder.order == if IntersectionSidewalkKey in old(builder.subMeshes) then old(builder.order)
                             else old(builder.order) + [IntersectionSidewalkKey]
    ensures builder.isDirty == old(builder.isDirty) && builder.castShadows == old(builder.castShadows)
    ensures builder.meshes == old(builder.meshes) && builder.collider == old(builder.collider)
  {
    var material := st.sidewalkMaterial.GetOr(Sidewalk.DefaultSidewalkMaterial);
    ghost var faces := StripFacesAll(st, b, m);
    StripsCapacity(st, b, m);
    builder.InitSubmesh(IntersectionSidewalkKey, 32, 48, material, true);
    ghost var table := builder.subMeshes;
    ghost var stages := StagesOf(faces, material, true);
    StagesEnds(stages, faces, material, true);
    Declared(table, IntersectionSidewalkKey, faces, material, true);
    assert stages[0] == Partial(faces, 0, material, true);
    WriteStrips(builder, st, b, m, table, builder.order, stages, material);
    FinishEntry(table, builder.order, IntersectionSidewalkKey, faces, material, true);
    UpdateTwice(old(builder.subMeshes), IntersectionSidewalkKey, table[IntersectionSidewalkKey], stages[|faces|]);
  }

  /** The writing part of the older `BuildRectangleSidewalk`: the south, east, north and west strips. */
  method WriteStrips(builder: MeshBuilder, st: LegacySettings, b: Basis, m: Maths, ghost table: map<Key, SubMesh>,
                     ghost order: seq<Key>, ghost stages: seq<SubMesh>, ghost material: Material)
    requires Stages(stages, StripFacesAll(st, b, m), material, true)
    requires IntersectionSidewalkKey in table && builder.order == order && builder.subMeshes == table[IntersectionSidewalkKey := stages[0]]
    modifies builder
    ensures builder.subMeshes == table[IntersectionSidewalkKey := stages[|StripFacesAll(st, b, m)|]]
    ensures builder.order == order && builder.isDirty == old(builder.isDirty)
    ensures builder.castShadows == old(builder.castShadows)
    ensures builder.meshes == old(builder.meshes) && builder.collider == old(builder.collider)
  {
    ghost var groups := Strips(st, b, m);
    var right := b.right;
    var forward := b.forward;
    var p := RoadCorners(Plain(st), b);
    assert groups[..0] == [];
    ghost var w := AddStrip(builder, p.sw, p.se, Neg(forward), st.curb, b, m, table, order, groups, stages, 0, 0, material);
    w := AddStrip(builder, p.se, p.ne, right, st.curb, b, m, table, order, groups, stages, 1, w, material);
    w := AddStrip(builder, p.ne, p.nw, forward, st.curb, b, m, table, order, groups, stages, 2, w, material);
    w := AddStrip(builder, p.nw, p.sw, Neg(right), st.curb, b, m, table, order, groups, stages, 3, w, material);
    assert groups[..4] == groups;
  }

  /** One strip of the older sidewalk: its top quad, then its curb quad. */
  method AddStrip(builder: MeshBuilder, start: Vec3, end: Vec3, outward: Vec3, curb: Curb, b: Basis, m: Maths,
                  ghost table: map<Key, SubMesh>, ghost order: seq<Key>, ghost groups: seq<seq<Face>>,
                  ghost stages: seq<SubMesh>, ghost j: nat, ghost w: nat, ghost material: Material)
    returns (ghost w': nat)
    requires j < |groups| && groups[j] == Strip(start, end, outward, curb, b, m)
    requires w == |Flatten(groups[..j])| && Stages(stages, Flatten(groups), material, true) && w < |stages|
    requires IntersectionSidewalkKey in table && builder.order == order && builder.subMeshes == table[IntersectionSidewalkKey := stages[w]]
    modifies builder
    ensures w' == |Flatten(groups[..j + 1])| && w' < |stages| && builder.subMeshes == table[IntersectionSidewalkKey := stages[w']]
    ensures builder.order == order && builder.isDirty == old(builder.isDirty)
    ensures builder.castShadows == old(builder.castShadows)
    ensures builder.meshes == old(builder.meshes) && builder.collider == old(builder.collider)
  {
    var up := b.up;
    var forward := m.normal(Sub(end, start));
    var o0 := Add(start, Scale(outward, curb.width));
    var o1 := Add(end, Scale(outward, curb.width));
    var t0 := Raise(start, up, curb.height);
    var t1 := Raise(end, up, curb.height);
    var ot0 := Raise(o0, up, curb.height);
    var ot1 := Raise(o1, up, curb.height);
    var top := FlatQuad(ot0, ot1, t1, t0, up, forward, Vec2(0.0, 0.0), Vec2(0.0, 1.0), Vec2(1.0, 1.0), Vec2(1.0, 0.0));
    EmitGrouped(builder, IntersectionSidewalkKey, table, order, groups, stages, j, w, 0, top, material, true);
    var curbNormal := Neg(outward);
    var face := FlatQuad(t0, t1, end, start, curbNormal, forward, Vec2(0.0, 0.0), Vec2(1.0, 0.0), Vec2(1.0, 1.0), Vec2(0.0, 1.0));
    EmitGrouped(builder, IntersectionSidewalkKey, table, order, groups, stages, j, w, 1, face, material, true);
    FlattenGroup(groups, j);
    w' := w + 2;
  }

  // ------------------------------------------------------------ component

  /** The road entry the older build writes: the single quad for a rectangle, the fan for a circle. */
  function RoadEntry(st: LegacySettings, b: Basis, m: Maths): SubMesh
    requires st.Valid()
  {
    var material := st.roadMaterial.GetOr(Road.DefaultRoadMaterial);
    if st.shape == RectangleShape then Filled([RoadQuad(st, b, m)], material, true)
    else Filled(CircleRoadFaces(st.circle, b, m), material, true)
  }

  /** The sidewalk entry the older build writes: the four strips for a rectangle, the ring for a circle. */
  function SidewalkEntry(st: LegacySettings, b: Basis, m: Maths): SubMesh
    requires st.Valid()
  {
    var material := st.sidewalkMaterial.GetOr(Sidewalk.DefaultSidewalkMaterial);
    if st.shape == RectangleShape then Filled(StripFacesAll(st, b, m), material, true)
    else Filled(CircleSidewalkFaces(st.circle, st.curb, b, m), material, true)
  }

  /** The table after the older build over `table`: the road entry, then the sidewalk entry when the sidewalk is drawn. */
  function Built(table: map<Key, SubMesh>, st: LegacySettings, b: Basis, m: Maths): map<Key, SubMesh>
    requires st.Valid()
  {
    var road := table[IntersectionRoadKey := RoadEntry(st, b, m)];
    if DrawsSidewalk(st.curb) then road[IntersectionSidewalkKey := SidewalkEntry(st, b, m)] else road
  }

  /** The enumeration order after the older build over `table`: each written name not already present is appended. */
  function BuiltOrder(table: map<Key, SubMesh>, order: seq<Key>, st: LegacySettings): seq<Key> {
    var road := if IntersectionRoadKey in table then order else order + [IntersectionRoadKey];
    if !DrawsSidewalk(st.curb) || IntersectionSidewalkKey in table then road else road + [IntersectionSidewalkKey]
  }

  /**
    The older build callback: `BuildRoadSurface` (the rectangle's quad or the
    circle's fan), then `BuildSidewalk`, which writes nothing when the
    sidewalk's width or height is not positive.
  */
  method BuildAllMeshes(builder: MeshBuilder, st: LegacySettings, b: Basis, m: Maths)
    requires builder.Valid() && st.Valid()
    modifies builder
    ensures builder.Valid()
    ensures builder.subMeshes == Built(old(builder.subMeshes), st, b, m)
    ensures builder.order == BuiltOrder(old(builder.subMeshes), old(builder.order), st)
    ensures builder.isDirty == old(builder.isDirty) && builder.castShadows == old(builder.castShadows)
    ensures builder.meshes == old(builder.meshes) && builder.collider == old(builder.collider)
  {
    BuildRoadSurface(builder, st, b, m);
    BuildSidewalk(builder, st, b, m);
  }

  /** The older `BuildRoadSurface`: the rectangle's quad or the circle's fan, by shape. */
  method BuildRoadSurface(builder: MeshBuilder, st: LegacySettings, b: Basis, m: Maths)
    requires builder.Valid() && st.Valid()
    modifies builder
    ensures builder.Valid()
    ensures builder.subMeshes == old(builder.subMeshes)[IntersectionRoadKey := RoadEntry(st, b, m)]
    ensures builder.order == if IntersectionRoadKey in old(builder.subMeshes) then old(builder.order)
                             else old(builder.order) + [IntersectionRoadKey]
    ensures builder.isDirty == old(builder.isDirty) && builder.castShadows == old(builder.castShadows)
    ensures builder.meshes == old(builder.meshes) && builder.collider == old(builder.collider)
  {
    if st.shape == RectangleShape {
      BuildRectangleRoad(builder, st, b, m);
    } else {
      BuildCircleRoad(builder, st.circle, st.roadMaterial, b, m);
    }
  }

  /** The older `BuildSidewalk`: nothing when the width or the height is not positive, otherwise the shape's sidewalk. */
  method BuildSidewalk(builder: MeshBuilder, st: LegacySettings, b: Basis, m: Maths)
    requires builder.Valid() && st.Valid()
    modifies builder
    ensures builder.Valid()
    ensures builder.subMeshes == if DrawsSidewalk(st.curb) then old(builder.subMeshes)[IntersectionSidewalkKey := SidewalkEntry(st, b, m)]
                                 else old(builder.subMeshes)
    ensures builder.order == if !DrawsSidewalk(st.curb) || IntersectionSidewalkKey in old(builder.subMeshes) then old(builder.order)
                             else old(builder.order) + [IntersectionSidewalkKey]
    ensures builder.isDirty == old(builder.isDirty) && builder.castShadows == old(builder.castShadows)
    ensures builder.meshes == old(builder.meshes) && builder.collider == old(builder.collider)
  {
    if st.curb.width <= 0.0 || st.curb.height <= 0.0 {
      return;
    }
    if st.shape == RectangleShape {
      BuildRectangleSidewalk(builder, st, b, m);
    } else {
      BuildCircleSidewalk(builder, st.circle, st.curb, st.sidewalkMaterial, b, m);
    }
  }

  /**
    The older rebuild with its callback: the table, render meshes and
    collider are discarded, the road and sidewalk entries are written
    afresh, every drawable entry becomes a render mesh, and the colliding
    entries are merged into a collider when there are any.
  */
  method Rebuild(builder: MeshBuilder, st: LegacySettings, b: Basis, m: Maths)
    requires st.Valid()
    modifies builder
    ensures builder.Valid()
    ensures builder.subMeshes == Built(map[], st, b, m) && builder.order == BuiltOrder(map[], [], st)
    ensures builder.meshes == DrawList(builder.subMeshes, builder.order, |builder.order|)
    ensures builder.collider == if CollisionVertices(builder.subMeshes, builder.order, |builder.order|) == [] then None
                                else Some(Collision(CollisionVertices(builder.subMeshes, builder.order, |builder.order|),
                                                    CollisionIndices(builder.subMeshes, builder.order, |builder.order|)))
    ensures builder.isDirty == old(builder.isDirty) && builder.castShadows == old(builder.castShadows)
  {
    builder.Clear();
    BuildAllMeshes(builder, st, b, m);
    builder.BuildModel();
    builder.BuildCollider();
  }

  /** The older `OnEnabled`: a fresh builder, rebuilt at once. */
  method CreateMeshBuilder(st: LegacySettings, b: Basis, m: Maths) returns (builder: MeshBuilder)
    requires st.Valid()
    ensures fresh(builder) && builder.Valid()
    ensures builder.subMeshes == Built(map[], st, b, m) && builder.order == BuiltOrder(map[], [], st)
    ensures !builder.isDirty && builder.castShadows
  {
    builder := new MeshBuilder();
    Rebuild(builder, st, b, m);
  }

  /** The older `OnDisabled`: the builder is cleared of its entries, render meshes and collider. */
  method Disable(builder: MeshBuilder)
    modifies builder
    ensures builder.Valid()
    ensures builder.subMeshes == map[] && builder.order == [] && builder.meshes == [] && builder.collider == None
  {
    builder.Clear();
  }

  /** The older `OnUpdate`: a dirty builder is rebuilt and marked clean; a clean one is left exactly as it is. */
  method Update(builder: MeshBuilder, st: LegacySettings, b: Basis, m: Maths)
    requires st.Valid()
    modifies builder
    ensures !builder.isDirty
    ensures old(builder.isDirty) ==> builder.Valid() && builder.subMeshes == Built(map[], st, b, m)
                                     && builder.order == BuiltOrder(map[], [], st) && builder.castShadows == old(builder.castShadows)
    ensures !old(builder.isDirty) ==> unchanged(builder)
  {
    if builder.isDirty {
      Rebuild(builder, st, b, m);
      builder.isDirty := false;
    }
  }

  /** An older rectangle always gets a collider: its road entry collides, holding the four vertices of its quad. */
  lemma RectangleCollides(st: LegacySettings, b: Basis, m: Maths)
    requires st.Valid() && st.shape == RectangleShape
    ensures Built(map[], st, b, m)[IntersectionRoadKey].Collides()
    ensures CollisionVertices(Built(map[], st, b, m), BuiltOrder(map[], [], st), |BuiltOrder(map[], [], st)|) != []
  {
    var table := Built(map[], st, b, m);
    var order := BuiltOrder(map[], [], st);
    RoadQuadCapacity(st, b, m);
    assert |table[IntersectionRoadKey].vertices| == 4;
    assert order[0] == IntersectionRoadKey;
    NoColliderIffNothingCollides(table, order, |order|);
  }

  /**
    The older `GetExitTransform`'s position: the component's position moved
    out along the exit's yaw direction by the radius for a circle, or by
    half the larger side for a rectangle.
  */
  function ExitPosition(st: LegacySettings, index: int, origin: Vec3, m: Maths): Vec3
    requires 0 <= index < |st.circle.exits|
  {
    var dir := m.yawForward(st.circle.exits[index].angleDegrees);
    var dist := if st.shape == CircleShape then st.circle.radius else Max(st.width, st.length) * 0.5;
    Add(origin, Scale(dir, dist))
  }

  /**
    A rectangle's exit clears the road quad: it sits out along its direction
    by at least half the width and at least half the length, and by one of
    the two.
  */
  lemma ExitClearsRectangle(st: LegacySettings, index: int, origin: Vec3, m: Maths)
    requires 0 <= index < |st.circle.exits| && st.shape == RectangleShape
    ensures exists d :: d >= st.width * 0.5 && d >= st.length * 0.5 && (d == st.width * 0.5 || d == st.length * 0.5)
                        && ExitPosition(st, index, origin, m) == Add(origin, Scale(m.yawForward(st.circle.exits[index].angleDegrees), d))
  {
    var d := Max(st.width, st.length) * 0.5;
    assert d >= st.width * 0.5 && d >= st.length * 0.5;
    assert ExitPosition(st, index, origin, m) == Add(origin, Scale(m.yawForward(st.circle.exits[index].angleDegrees), d));
  }
}
