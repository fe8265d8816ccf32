/**
  The road component's mesh builder life cycle: the build callback writes the
  road and the sidewalk, a rebuild clears the table, runs the callback, then
  rebuilds the render meshes and the collider, and an update rebuilds only
  when the builder is marked dirty.
*/
module RoadComponent {
  import opened Wrappers
  import opened Geometry
  import opened Meshes
  import opened RoadLayout
  import opened Road
  import opened Sidewalk

  /** The table after a build over `table`: the road entry, then the sidewalk entry when there is one. */
  ghost function Built(table: map<Key, SubMesh>, spline: Spline, st: RoadSettings, m: Maths): map<Key, SubMesh>
    requires st.Valid()
  {
    var road := table[RoadKey := RoadEntry(spline, st, m)];
    if st.hasSidewalk then road[SidewalkKey := SidewalkEntry(spline, st, m)] else road
  }

  /** The enumeration order after a build over `table`: each written name not already present is appended. */
  function BuiltOrder(table: map<Key, SubMesh>, order: seq<Key>, st: RoadSettings): seq<Key> {
    var road := if RoadKey in table then order else order + [RoadKey];
    if !st.hasSidewalk || SidewalkKey in table then road else road + [SidewalkKey]
  }

  /** The entries a build writes into an empty table. */
  ghost function ComponentTable(spline: Spline, st: RoadSettings, m: Maths): map<Key, SubMesh>
    requires st.Valid()
  {
    Built(map[], spline, st, m)
  }

  /** The enumeration order of those entries: the road, then the sidewalk when there is one. */
  function ComponentOrder(st: RoadSettings): (r: seq<Key>)
    ensures r == BuiltOrder(map[], [], st)
  {
    if st.hasSidewalk then [RoadKey, SidewalkKey] else [RoadKey]
  }

  /** The build callback: the road, then the sidewalk. */
  method BuildAllMeshes(builder: MeshBuilder, spline: Spline, st: RoadSettings, m: Maths)
    requires builder.Valid() && st.Valid()
    modifies builder
    ensures builder.Valid()
    ensures builder.subMeshes == Built(old(builder.subMeshes), spline, st, m)
    ensures builder.order == BuiltOrder(old(builder.subMeshes), old(builder.order), st)
    ensures builder.isDirty == old(builder.isDirty) && builder.castShadows == old(builder.castShadows)
    ensures builder.meshes == old(builder.meshes) && builder.collider == old(builder.collider)
  {
    BuildRoad(builder, spline, st, m);
    assert SidewalkKey in builder.subMeshes <==> SidewalkKey in old(builder.subMeshes);
    BuildSidewalk(builder, spline, st, m);
  }

  /**
    The road entry always collides: it is flagged for collision and holds four
    vertices per kept segment, of which there is at least one.
  */
  lemma RoadCollides(spline: Spline, st: RoadSettings, m: Maths)
    requires st.Valid()
    ensures Enumerates(ComponentTable(spline, st, m), ComponentOrder(st))
    ensures ComponentTable(spline, st, m)[RoadKey].Collides()
    ensures CollisionVertices(ComponentTable(spline, st, m), ComponentOrder(st), |ComponentOrder(st)|) != []
  {
    var table := ComponentTable(spline, st, m);
    var order := ComponentOrder(st);
    var layout := PlannedLayout(spline, st, m);
    RoadCapacity(layout, st, m);
    assert |table[RoadKey].vertices| == layout.Count() * 4;
    assert order[0] == RoadKey;
    NoColliderIffNothingCollides(table, order, |order|);
  }

  /**
    The builder's rebuild with the road component's callback: the table,
    render meshes and collider are discarded, the road and sidewalk entries
    are written afresh, every drawable entry becomes a render mesh, and the
    colliding entries are merged into a collider, which always exists since
    the road collides.
  */
  method Rebuild(builder: MeshBuilder, spline: Spline, st: RoadSettings, m: Maths)
    requires st.Valid()
    modifies builder
    ensures builder.Valid()
    ensures builder.subMeshes == ComponentTable(spline, st, m) && builder.order == ComponentOrder(st)
    ensures builder.meshes == DrawList(builder.subMeshes, builder.order, |builder.order|)
    ensures builder.collider == Some(Collision(CollisionVertices(builder.subMeshes, builder.order, |builder.order|),
                                               CollisionIndices(builder.subMeshes, builder.order, |builder.order|)))
    ensures builder.isDirty == old(builder.isDirty) && builder.castShadows == old(builder.castShadows)
  {
    builder.Clear();
    BuildAllMeshes(builder, spline, st, m);
    builder.BuildModel();
    RoadCollides(spline, st, m);
    builder.BuildCollider();
  }

  /** Creating the builder for the component: a fresh builder, rebuilt at once. */
  method CreateMeshBuilder(spline: Spline, st: RoadSettings, m: Maths) returns (builder: MeshBuilder)
    requires st.Valid()
    ensures fresh(builder) && builder.Valid()
    ensures builder.subMeshes == ComponentTable(spline, st, m) && builder.order == ComponentOrder(st)
    ensures builder.collider.Some? && !builder.isDirty && builder.castShadows
  {
    builder := new MeshBuilder();
    Rebuild(builder, spline, st, m);
  }

  /** `RemoveMeshBuilder`: the builder is cleared of its entries, render meshes and collider. */
  method RemoveMeshBuilder(builder: MeshBuilder)
    modifies builder
    ensures builder.Valid()
    ensures builder.subMeshes == map[] && builder.order == [] && builder.meshes == [] && builder.collider == None
  {
    builder.Clear();
  }

  /**
    The per-frame update: a dirty builder is rebuilt and marked clean; a clean
    one is left exactly as it is.
  */
  method Update(builder: MeshBuilder, spline: Spline, st: RoadSettings, m: Maths)
    requires st.Valid()
    modifies builder
    ensures !builder.isDirty
    ensures old(builder.isDirty) ==> builder.Valid() && builder.subMeshes == ComponentTable(spline, st, m)
                                     && builder.order == ComponentOrder(st) && builder.collider.Some?
                                     && builder.castShadows == old(builder.castShadows)
    ensures !old(builder.isDirty) ==> unchanged(builder)
  {
    if builder.isDirty {
      Rebuild(builder, spline, st, m);
      builder.isDirty := false;
    }
  }
}
