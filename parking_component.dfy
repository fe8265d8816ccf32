/**
  The parking-lot component's life cycle: its own mesh builder, which casts
  no shadows, builds the painted lines and then the curbs, uploads every
  drawable entry and gathers the curbs into the collider.
*/
module ParkingLotComponent {
  import opened Wrappers
  import opened Geometry
  import opened Meshes
  import opened ParkingLot
  import opened ParkingLines
  import opened ParkingCurbs

  /** The table after the build callback over `table`: the lines entry, then the curbs entry when curbs are drawn. */
  ghost function Built(table: map<Key, SubMesh>, st: LotSettings, m: Maths): map<Key, SubMesh>
    requires st.spotCount >= -1
  {
    var lines := table[LinesKey := LinesEntry(st, m)];
    if DrawsCurbs(st) then lines[CurbsKey := CurbsEntry(st, m)] else lines
  }

  /** The enumeration order after the build callback over `table`: each written name not already present is appended. */
  function BuiltOrder(table: map<Key, SubMesh>, order: seq<Key>, st: LotSettings): seq<Key> {
    var lines := if LinesKey in table then order else order + [LinesKey];
    if !DrawsCurbs(st) || CurbsKey in table then lines else lines + [CurbsKey]
  }

  /**
    The build callback: `BuildParkingLines`, then `BuildCurbs`. A spot count
    below -1 is excluded, as the lines would then be declared with negative
    sizes.
  */
  method BuildAllMeshes(builder: MeshBuilder, st: LotSettings, m: Maths)
    requires builder.Valid() && st.spotCount >= -1
    modifies builder
    ensures builder.Valid()
    ensures builder.subMeshes == Built(old(builder.subMeshes), st, m)
    ensures builder.order == BuiltOrder(old(builder.subMeshes), old(builder.order), st)
    ensures builder.isDirty == old(builder.isDirty) && builder.castShadows == old(builder.castShadows)
    ensures builder.meshes == old(builder.meshes) && builder.collider == old(builder.collider)
  {
    BuildParkingLines(builder, st, m);
    BuildCurbs(builder, st, m);
  }

  /** The builder's rebuild: everything is discarded, the callback runs, then the render meshes and the collider are built. */
  method Rebuild(builder: MeshBuilder, st: LotSettings, m: Maths)
    requires st.spotCount >= -1
    modifies builder
    ensures builder.Valid()
    ensures builder.subMeshes == Built(map[], st, m) && builder.order == BuiltOrder(map[], [], st)
    ensures builder.meshes == DrawList(builder.subMeshes, builder.order, |builder.order|)
    ensures builder.collider == if DrawsCurbs(st) then Some(Collision(CollisionVertices(builder.subMeshes, builder.order, |builder.order|),
                                                                        CollisionIndices(builder.subMeshes, builder.order, |builder.order|)))
                                else None
    ensures builder.isDirty == old(builder.isDirty) && builder.castShadows == old(builder.castShadows)
  {
    builder.Clear();
    BuildAllMeshes(builder, st, m);
    builder.BuildModel();
    ColliderIffCurbs(st, m);
    builder.BuildCollider();
  }

  /** `OnEnabled`: a fresh builder that casts no shadows, rebuilt at once. */
  method CreateMeshBuilder(st: LotSettings, m: Maths) returns (builder: MeshBuilder)
    requires st.spotCount >= -1
    ensures fresh(builder) && builder.Valid()
    ensures builder.subMeshes == Built(map[], st, m) && builder.order == BuiltOrder(map[], [], st)
    ensures !builder.isDirty && !builder.castShadows
  {
    builder := new MeshBuilder();
    builder.castShadows := false;
    Rebuild(builder, st, m);
  }

  /** `OnDisabled`: the builder is cleared of its entries, render meshes and collider. */
  method Disable(builder: MeshBuilder)
    modifies builder
    ensures builder.Valid()
    ensures builder.subMeshes == map[] && builder.order == [] && builder.meshes == [] && builder.collider == None
  {
    builder.Clear();
  }

  /** `OnUpdate`: a dirty builder is rebuilt and marked clean; a clean one is left exactly as it is. */
  method Update(builder: MeshBuilder, st: LotSettings, m: Maths)
    requires st.spotCount >= -1
    modifies builder
    ensures !builder.isDirty
    ensures old(builder.isDirty) ==> builder.Valid() && builder.subMeshes == Built(map[], st, m)
                                     && builder.order == BuiltOrder(map[], [], st) && builder.castShadows == old(builder.castShadows)
    ensures !old(builder.isDirty) ==> unchanged(builder)
  {
    if builder.isDirty {
      Rebuild(builder, st, m);
      builder.isDirty := false;
    }
  }

  /**
    A freshly built lot has a collider exactly when it draws curbs: the lines
    never collide, and the curbs entry collides with the vertices of all its
    curbs whenever there is at least one spot.
  */
  lemma ColliderIffCurbs(st: LotSettings, m: Maths)
    requires st.spotCount >= -1
    ensures Enumerates(Built(map[], st, m), BuiltOrder(map[], [], st))
    ensures var table, order := Built(map[], st, m), BuiltOrder(map[], [], st);
            CollisionVertices(table, order, |order|) != [] <==> DrawsCurbs(st)
  {
    var table, order := Built(map[], st, m), BuiltOrder(map[], [], st);
    LinesNeverCollide(st, m);
    NoColliderIffNothingCollides(table, order, |order|);
    if DrawsCurbs(st) {
      CurbsCollide(st, m);
      assert order[1] == CurbsKey;
    }
  }

  /** The lines entry is declared without collision. */
  lemma LinesNeverCollide(st: LotSettings, m: Maths)
    requires st.spotCount >= -1
    ensures !LinesEntry(st, m).Collides()
  {
    LinesEntryHolds(st, m);
  }

  /** With at least one spot, the curbs entry collides: it is flagged for collision and holds the vertices of every curb. */
  lemma CurbsCollide(st: LotSettings, m: Maths)
    requires st.spotCount > 0
    ensures CurbsEntry(st, m).Collides()
    ensures |CurbsEntry(st, m).vertices| == VerticesPerCurb(st) * st.spotCount
  {
    CurbsCapacity(st, m);
    MulPositive(VerticesPerCurb(st), st.spotCount);
  }

  /** The product of two positive integers is positive. */
  lemma MulPositive(a: int, b: int)
    requires a > 0 && b > 0
    ensures a * b > 0
  {
  }

  /**
    The lines become a render mesh unless the spot count is -1, when the
    lines entry is declared empty; with no spot, room for the one boundary
    line is still declared.
  */
  lemma LinesDrawableIff(st: LotSettings, m: Maths)
    requires st.spotCount >= -1
    ensures Built(map[], st, m)[LinesKey].Drawable() <==> st.spotCount >= 0
  {
    LinesEntryHolds(st, m);
    assert LinesKey != CurbsKey;
  }
}
