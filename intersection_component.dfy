/**
  The intersection component (the current revision): its settings, the build
  callback that writes the road and then the sidewalk of the chosen shape,
  the rebuild and per-frame update of its mesh builder, and the transform of
  a circle exit.
*/
module IntersectionComponent {
  import opened Wrappers
  import opened Geometry
  import opened Meshes
  import Road
  import Sidewalk
  import opened IntersectionParts
  import opened RectangleIntersection
  import opened CircleIntersection

  /**
    The settings the builds read: the shape, the road's material and texture
    repeat, the sidewalk's material and dimensions, the rectangle and the
    circle.
  */
  datatype Settings = Settings(shape: Shape, roadMaterial: Option<Material>, roadTextureRepeat: real,
                               sidewalkMaterial: Option<Material>, curb: Curb, rect: Rectangle, circle: Circle)
  {
    /** The circle's precision is within its clamp. */
    predicate Valid() {
      circle.Valid()
    }
  }

  /**
    A new component: a 500 by 500 rectangle without exits, road texture
    repeat 500, a sidewalk 150 wide and 5 high with texture repeat 200, no
    materials, and the default circle.
  */
  const DefaultSettings := Settings(RectangleShape, None, 500.0, None, Curb(150.0, 5.0, 200.0),
                                    Rectangle(500.0, 500.0, NoExit), DefaultCircle)

  /** The road entry a build writes: the faces of the chosen shape's road, filled, colliding. */
  function RoadEntry(st: Settings, b: Basis, m: Maths): SubMesh
    requires st.Valid()
  {
    var material := st.roadMaterial.GetOr(Road.DefaultRoadMaterial);
    if st.shape == RectangleShape then Filled(RoadFaces(st.rect, st.curb, st.roadTextureRepeat, b, m), material, true)
    else Filled(CircleRoadFaces(st.circle, b, m), material, true)
  }

  /** The sidewalk entry a build writes: the faces of the chosen shape's sidewalk, filled, colliding. */
  function SidewalkEntry(st: Settings, b: Basis, m: Maths): SubMesh
    requires st.Valid()
  {
    var material := st.sidewalkMaterial.GetOr(Sidewalk.DefaultSidewalkMaterial);
    if st.shape == RectangleShape then Filled(SidewalkFaces(st.rect, st.curb, b, m), material, true)
    else Filled(CircleSidewalkFaces(st.circle, st.curb, b, m), material, true)
  }

  /** The table after a build over `table`: the road entry, then the sidewalk entry when the sidewalk is drawn. */
  function Built(table: map<Key, SubMesh>, st: Settings, b: Basis, m: Maths): map<Key, SubMesh>
    requires st.Valid()
  {
    var road := table[IntersectionRoadKey := RoadEntry(st, b, m)];
    if DrawsSidewalk(st.curb) then road[IntersectionSidewalkKey := SidewalkEntry(st, b, m)] else road
  }

  /** The enumeration order after a build over `table`: each written name not already present is appended. */
  function BuiltOrder(table: map<Key, SubMesh>, order: seq<Key>, st: Settings): seq<Key> {
    var road := if IntersectionRoadKey in table then order else order + [IntersectionRoadKey];
    if !DrawsSidewalk(st.curb) || IntersectionSidewalkKey in table then road else road + [IntersectionSidewalkKey]
  }

  /** `BuildRoad`: the rectangle's road or the circle's, by shape. */
  method BuildRoad(builder: MeshBuilder, st: Settings, b: Basis, m: Maths)
    requires builder.Valid() && st.Valid()
    modifies builder
    ensures builder.Valid()
    ensures builder.subMeshes == old(builder.subMeshes)[IntersectionRoadKey := RoadEntry(st, b, m)]
    ensures builder.order == if IntersectionRoadKey in old(builder.subMeshes) then old(builder.order)
                             else old(builder.order) + [IntersectionRoadKey]
    ensures builder.isDirty == old(builder.isDirty) && builder.castShadows == old(builder.castShadows)
    ensures builder.meshes == old(builder.meshes) && builder.collider == old(builder.collider)
  {
    if st.shape == RectangleShape {
      BuildRectangleRoad(builder, st.rect, st.curb, st.roadMaterial, st.roadTextureRepeat, b, m);
    } else {
      BuildCircleRoad(builder, st.circle, st.roadMaterial, b, m);
    }
  }

  /**
    `BuildSidewalk`: nothing when the width or the height is not positive;
    otherwise the rectangle's sidewalk or the circle's, by shape.
  */
  method BuildSidewalk(builder: MeshBuilder, st: Settings, b: Basis, m: Maths)
    requires builder.Valid() && st.Valid()
    modifies builder
    ensures builder.Valid()
    ensures builder.subMeshes == if DrawsSidewalk(st.curb) then old(builder.subMeshes)[IntersectionSidewalkKey := SidewalkEntry(st, b, m)]
                                 else old(builder.subMeshes)
    ensures builder.order == if !DrawsSidewalk(st.curb) || IntersectionSidewalkKey in old(builder.subMeshes) then old(builder.order)
                             else old(builder.order) + [IntersectionSidewalkKey]
    ensures builder.isDirty == old(builder.isDirty) && builder.castShadows == old(builder.castShadows)
    ensures builder.meshes == old(builder.meshes) && builder.collider == old(builder.collider)
  {
    if st.curb.width <= 0.0 || st.curb.height <= 0.0 {
      return;
    }
    if st.shape == RectangleShape {
      BuildRectangleSidewalk(builder, st.rect, st.curb, st.sidewalkMaterial, b, m);
    } else {
      BuildCircleSidewalk(builder, st.circle, st.curb, st.sidewalkMaterial, b, m);
    }
  }

  /** The build callback: the road, then the sidewalk. */
  method BuildAllMeshes(builder: MeshBuilder, st: Settings, b: Basis, m: Maths)
    requires builder.Valid() && st.Valid()
    modifies builder
    ensures builder.Valid()
    ensures builder.subMeshes == Built(old(builder.subMeshes), st, b, m)
    ensures builder.order == BuiltOrder(old(builder.subMeshes), old(builder.order), st)
    ensures builder.isDirty == old(builder.isDirty) && builder.castShadows == old(builder.castShadows)
    ensures builder.meshes == old(builder.meshes) && builder.collider == old(builder.collider)
  {
    BuildRoad(builder, st, b, m);
    assert IntersectionSidewalkKey in builder.subMeshes <==> IntersectionSidewalkKey in old(builder.subMeshes);
    BuildSidewalk(builder, st, b, m);
  }

  /** The entries a build writes into an empty table. */
  function ComponentTable(st: Settings, b: Basis, m: Maths): map<Key, SubMesh>
    requires st.Valid()
  {
    Built(map[], st, b, m)
  }

  /** The enumeration order of those entries: the road, then the sidewalk when it is drawn. */
  function ComponentOrder(st: Settings): (r: seq<Key>)
    ensures r == BuiltOrder(map[], [], st)
  {
    if DrawsSidewalk(st.curb) then [IntersectionRoadKey, IntersectionSidewalkKey] else [IntersectionRoadKey]
  }

  /**
    The rebuild with the intersection's callback: the table, render meshes
    and collider are discarded, the road and sidewalk entries are written
    afresh, every drawable entry becomes a render mesh, and the colliding
    entries are merged into a collider when there are any.
  */
  method Rebuild(builder: MeshBuilder, st: Settings, b: Basis, m: Maths)
    requires st.Valid()
    modifies builder
    ensures builder.Valid()
    ensures builder.subMeshes == ComponentTable(st, b, m) && builder.order == ComponentOrder(st)
    ensures builder.meshes == DrawList(builder.subMeshes, builder.order, |builder.order|)
    ensures builder.collider == if CollisionVertices(builder.subMeshes, builder.order, |builder.order|) == [] then None
                                else Some(Collision(CollisionVertices(builder.subMeshes, builder.order, |builder.order|),
                                                    CollisionIndices(builder.subMeshes, builder.order, |builder.order|)))
    ensures builder.isDirty == old(builder.isDirty) && builder.castShadows == old(builder.castShadows)
  {
    builder.Clear();
    BuildAllMeshes(builder, st, b, m);
    builder.BuildModel();
    builder.BuildCollider();
  }

  /** Enabling the component: a fresh builder, rebuilt at once. */
  method CreateMeshBuilder(st: Settings, b: Basis, m: Maths) returns (builder: MeshBuilder)
    requires st.Valid()
    ensures fresh(builder) && builder.Valid()
    ensures builder.subMeshes == ComponentTable(st, b, m) && builder.order == ComponentOrder(st)
    ensures !builder.isDirty && builder.castShadows
  {
    builder := new MeshBuilder();
    Rebuild(builder, st, b, m);
  }

  /** Disabling the component: the builder is cleared of its entries, render meshes and collider. */
  method Disable(builder: MeshBuilder)
    modifies builder
    ensures builder.Valid()
    ensures builder.subMeshes == map[] && builder.order == [] && builder.meshes == [] && builder.collider == None
  {
    builder.Clear();
  }

  /** The per-frame update: a dirty builder is rebuilt and marked clean; a clean one is left exactly as it is. */
  method Update(builder: MeshBuilder, st: Settings, b: Basis, m: Maths)
    requires st.Valid()
    modifies builder
    ensures !builder.isDirty
    ensures old(builder.isDirty) ==> builder.Valid() && builder.subMeshes == ComponentTable(st, b, m)
                                     && builder.order == ComponentOrder(st) && builder.castShadows == old(builder.castShadows)
    ensures !old(builder.isDirty) ==> unchanged(builder)
  {
    if builder.isDirty {
      Rebuild(builder, st, b, m);
      builder.isDirty := false;
    }
  }

  /**
    A rectangle always gets a collider: its road entry collides, holding at
    least the four vertices of the centre quad.
  */
  lemma RectangleCollides(st: Settings, b: Basis, m: Maths)
    requires st.Valid() && st.shape == RectangleShape
    ensures ComponentTable(st, b, m)[IntersectionRoadKey].Collides()
    ensures CollisionVertices(ComponentTable(st, b, m), ComponentOrder(st), |ComponentOrder(st)|) != []
  {
    var table := ComponentTable(st, b, m);
    var order := ComponentOrder(st);
    RoadCapacity(st.rect, st.curb, st.roadTextureRepeat, b, m);
    assert |table[IntersectionRoadKey].vertices| == VertexCount(RoadFaces(st.rect, st.curb, st.roadTextureRepeat, b, m));
    assert order[0] == IntersectionRoadKey;
    NoColliderIffNothingCollides(table, order, |order|);
  }

  /**
    A circle without exits always gets a collider too: none of its at least
    8 segments is blocked, so its road entry holds 3 vertices for each.
  */
  lemma OpenCircleCollides(st: Settings, b: Basis, m: Maths)
    requires st.Valid() && st.shape == CircleShape && st.circle.exits == []
    ensures ComponentTable(st, b, m)[IntersectionRoadKey].Collides()
    ensures CollisionVertices(ComponentTable(st, b, m), ComponentOrder(st), |ComponentOrder(st)|) != []
  {
    var table := ComponentTable(st, b, m);
    var order := ComponentOrder(st);
    var active := ActiveCount(st.circle, m, SegmentCount(st.circle));
    ActiveBounds(st.circle, m, SegmentCount(st.circle));
    CircleRoadCapacity(st.circle, b, m, active);
    assert |table[IntersectionRoadKey].vertices| == active * 3;
    assert order[0] == IntersectionRoadKey;
    NoColliderIffNothingCollides(table, order, |order|);
  }

  // ------------------------------------------------------------ circle exits

  /** How far out a circle exit sits: the radius for a circle, half the larger side for a rectangle. */
  function ExitDistance(st: Settings): (r: real)
    ensures st.shape == CircleShape ==> r == st.circle.radius
    ensures st.shape == RectangleShape ==> r >= st.rect.width * 0.5 && r >= st.rect.length * 0.5
    ensures st.shape == RectangleShape ==> r == st.rect.width * 0.5 || r == st.rect.length * 0.5
  {
    if st.shape == CircleShape then st.circle.radius else Max(st.rect.width, st.rect.length) * 0.5
  }

  /**
    `GetCircleExitTransform`'s position: the component's position moved out
    along the exit's yaw direction by the exit distance. The rotation, a
    look-at towards that direction, is left out.
  */
  function CircleExitPosition(st: Settings, index: int, origin: Vec3, m: Maths): Vec3
    requires 0 <= index < |st.circle.exits|
  {
    var dir := m.yawForward(st.circle.exits[index].angleDegrees);
    Add(origin, Scale(dir, ExitDistance(st)))
  }

  /**
    A circle's exit sits on the road's rim: when the exit's angle is where
    segment i starts, its position is that segment's rim corner of the road
    fan, moved to the component's position.
  */
  lemma CircleExitOnRim(st: Settings, index: int, origin: Vec3, b: Basis, m: Maths, i: int)
    requires st.Valid() && st.shape == CircleShape && 0 <= index < |st.circle.exits|
    requires st.circle.exits[index].angleDegrees == SegmentStart(st.circle, i)
    ensures CircleExitPosition(st, index, origin, m) == Add(origin, RoadTriangle(st.circle, b, m, i).b)
  {
    RoadFan(st.circle, b, m, i);
  }
}
