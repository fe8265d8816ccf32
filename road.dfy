/**
  The road component's ribbon generator: one quad per kept segment, spanning
  the road width across each pair of kept frames, textured by arc length.
*/
module Road {
  import opened Wrappers
  import opened Geometry
  import opened Meshes
  import opened Segments
  import opened RoadLayout

  const RoadKey := Named("road")
  const DefaultRoadMaterial := Material("materials/dev/reflectivity_30.vmat")

  /** The road material, or the fallback development material when none is set. */
  function RoadMaterialOf(st: RoadSettings): Material {
    st.roadMaterial.GetOr(DefaultRoadMaterial)
  }

  /** Texture V of boundary `idx`: its arc length divided by the inches per repeat. */
  function BoundaryV(layout: Layout, repeat: real, idx: int): real
    requires layout.n >= 1 && repeat > 0.0
  {
    layout.Distance(idx) / repeat
  }

  /**
    The quad of kept segment i: left and right edge points half the road width
    along each frame's right vector, the frames' up vectors as normals, the
    chord direction as tangent, U 0 on the left and 1 on the right, and V the
    boundaries' arc lengths in texture repeats.
  */
  function RoadFace(layout: Layout, st: RoadSettings, m: Maths, i: int): (r: Face)
    requires layout.Valid() && st.Valid() && 0 <= i < layout.Count()
    ensures r.Quad? && r.uvA.x == 0.0 && r.uvB.x == 1.0 && r.uvC.x == 1.0 && r.uvD.x == 0.0
  {
    var idx0 := layout.keep[i];
    var idx1 := layout.keep[i + 1];
    var v0 := BoundaryV(layout, st.roadTextureRepeat, idx0);
    var v1 := BoundaryV(layout, st.roadTextureRepeat, idx1);
    var f0 := layout.frames[idx0];
    var f1 := layout.frames[idx1];
    var forward := m.normal(Sub(f1.position, f0.position));
    var halfWidth := st.roadWidth * 0.5;
    Quad(Sub(f0.position, Scale(f0.right, halfWidth)), Add(f0.position, Scale(f0.right, halfWidth)),
         Add(f1.position, Scale(f1.right, halfWidth)), Sub(f1.position, Scale(f1.right, halfWidth)),
         f0.up, f1.up, f1.up, f0.up,
         forward,
         Vec2(0.0, v0), Vec2(1.0, v0), Vec2(1.0, v1), Vec2(0.0, v1))
  }

  /** The road's quads, one per kept segment, in emission order. */
  function RoadFaces(layout: Layout, st: RoadSettings, m: Maths): (r: seq<Face>)
    requires layout.Valid() && st.Valid()
    ensures |r| == layout.Count()
    ensures forall i :: 0 <= i < |r| ==> r[i].Quad?
  {
    seq(layout.Count(), i requires 0 <= i < layout.Count() => RoadFace(layout, st, m, i))
  }

  /** The road entry for a spline: exactly its quads, with collision. */
  ghost function RoadEntry(spline: Spline, st: RoadSettings, m: Maths): SubMesh
    requires st.Valid()
  {
    Filled(RoadFaces(PlannedLayout(spline, st, m), st, m), RoadMaterialOf(st), true)
  }

  /** The declared totals, 4 vertices and 6 indices per kept segment, are exactly what the quads take. */
  lemma RoadCapacity(layout: Layout, st: RoadSettings, m: Maths)
    requires layout.Valid() && st.Valid()
    ensures VertexCount(RoadFaces(layout, st, m)) == layout.Count() * 4
    ensures IndexCount(RoadFaces(layout, st, m)) == layout.Count() * 6
  {
    QuadCounts(RoadFaces(layout, st, m));
  }

  /**
    Generates the road: samples the layout, declares the "road" entry with
    4 vertices and 6 indices per kept segment, then writes one quad per
    segment. The entry ends holding exactly those quads, filled to capacity.
  */
  method BuildRoad(builder: MeshBuilder, spline: Spline, st: RoadSettings, m: Maths)
    requires builder.Valid() && st.Valid()
    modifies builder
    ensures builder.Valid()
    ensures builder.subMeshes == old(builder.subMeshes)[RoadKey := RoadEntry(spline, st, m)]
    ensures builder.order == if RoadKey in old(builder.subMeshes) then old(builder.order) else old(builder.order) + [RoadKey]
    ensures builder.isDirty == old(builder.isDirty) && builder.castShadows == old(builder.castShadows)
    ensures builder.meshes == old(builder.meshes) && builder.collider == old(builder.collider)
  {
    var layout := SampleLayout(spline, st, m);
    WriteRoad(builder, layout, st, m);
  }

  /** The part of `BuildRoad` after sampling: declare the entry, then write the quads. */
  method WriteRoad(builder: MeshBuilder, layout: Layout, st: RoadSettings, m: Maths)
    requires builder.Valid() && layout.Valid() && st.Valid()
    modifies builder
    ensures builder.Valid()
    ensures builder.subMeshes == old(builder.subMeshes)[RoadKey := Filled(RoadFaces(layout, st, m), RoadMaterialOf(st), true)]
    ensures builder.order == if RoadKey in old(builder.subMeshes) then old(builder.order) else old(builder.order) + [RoadKey]
    ensures builder.isDirty == old(builder.isDirty) && builder.castShadows == old(builder.castShadows)
    ensures builder.meshes == old(builder.meshes) && builder.collider == old(builder.collider)
  {
    var finalSegmentCount := |layout.keep| - 1;
    var material := RoadMaterialOf(st);
    ghost var faces := RoadFaces(layout, st, m);
    RoadCapacity(layout, st, m);
    builder.InitSubmesh(RoadKey, finalSegmentCount * 4, finalSegmentCount * 6, material, true);
    ghost var declared := builder.subMeshes;
    Declared(declared, RoadKey, faces, material, true);
    EmitRoadQuads(builder, declared, builder.order, layout, st, m, material);
    FinishEntry(declared, builder.order, RoadKey, faces, material, true);
    UpdateTwice(old(builder.subMeshes), RoadKey, declared[RoadKey], Filled(faces, material, true));
  }

  /** The second pass of `BuildRoad`: one quad per kept segment into the declared entry. */
  method EmitRoadQuads(builder: MeshBuilder, ghost table: map<Key, SubMesh>, ghost order: seq<Key>,
                       layout: Layout, st: RoadSettings, m: Maths, ghost material: Material)
    requires layout.Valid() && st.Valid()
    requires RoadKey in table && builder.order == order
    requires builder.subMeshes == table[RoadKey := Partial(RoadFaces(layout, st, m), 0, material, true)]
    modifies builder
    ensures builder.subMeshes == table[RoadKey := Partial(RoadFaces(layout, st, m), layout.Count(), material, true)]
    ensures builder.order == order && builder.isDirty == old(builder.isDirty)
    ensures builder.castShadows == old(builder.castShadows)
    ensures builder.meshes == old(builder.meshes) && builder.collider == old(builder.collider)
  {
    ghost var faces := RoadFaces(layout, st, m);
    var i := 0;
    while i < |layout.keep| - 1
      invariant 0 <= i <= |layout.keep| - 1
      invariant builder.subMeshes == table[RoadKey := Partial(faces, i, material, true)]
      invariant builder.order == order && builder.isDirty == old(builder.isDirty)
      invariant builder.castShadows == old(builder.castShadows)
      invariant builder.meshes == old(builder.meshes) && builder.collider == old(builder.collider)
    {
      EmitNext(builder, RoadKey, table, order, faces, i, RoadFace(layout, st, m, i), material, true);
      i := i + 1;
    }
    assert i == |faces|;
  }

  /**
    The road's centre line runs through the kept frames and its edges lie half
    the road width to either side along the frames' right vectors: the two
    corners at each end average to the frame position and differ by the road
    width along its right vector. U is 0 on the left edge and 1 on the right.
  */
  lemma RoadEdges(layout: Layout, st: RoadSettings, m: Maths, i: int)
    requires layout.Valid() && st.Valid() && 0 <= i < layout.Count()
    ensures var f := RoadFaces(layout, st, m)[i];
            var f0 := layout.frames[layout.keep[i]];
            var f1 := layout.frames[layout.keep[i + 1]];
            && Add(f.a, f.b) == Scale(f0.position, 2.0) && Sub(f.b, f.a) == Scale(f0.right, st.roadWidth)
            && Add(f.d, f.c) == Scale(f1.position, 2.0) && Sub(f.c, f.d) == Scale(f1.right, st.roadWidth)
            && f.uvA.x == f.uvD.x == 0.0 && f.uvB.x == f.uvC.x == 1.0
  {
  }

  /**
    On a well-behaved spline each quad's near end is centred on the curve at
    the kept boundary's arc length, idx/n of the spline length.
  */
  lemma RoadFollowsSpline(spline: Spline, st: RoadSettings, m: Maths, i: int)
    requires spline.Sane() && st.Valid()
    requires 0 <= i < PlannedLayout(spline, st, m).Count()
    ensures var layout := PlannedLayout(spline, st, m);
            var f := RoadFaces(layout, st, m)[i];
            Add(f.a, f.b) == Scale(spline.positionAt(layout.Distance(layout.keep[i])), 2.0)
  {
    var layout := PlannedLayout(spline, st, m);
    FramesOnSpline(spline, st, m, layout.keep[i]);
    RoadEdges(layout, st, m, i);
  }

  /**
    Texture V is continuous along the road: each quad's far V is the next
    quad's near V, since both are the shared boundary's arc length over the
    repeat.
  */
  lemma RoadVContinuous(layout: Layout, st: RoadSettings, m: Maths, i: int)
    requires layout.Valid() && st.Valid() && 0 <= i < layout.Count() - 1
    ensures RoadFaces(layout, st, m)[i].uvD.y == RoadFaces(layout, st, m)[i + 1].uvA.y
    ensures RoadFaces(layout, st, m)[i].uvC.y == RoadFaces(layout, st, m)[i + 1].uvB.y
  {
  }

  /**
    Texture V never decreases along the road: it starts at 0, each quad's V
    runs forward, and the last quad ends at the spline length in repeats.
  */
  lemma RoadVIncreasing(layout: Layout, st: RoadSettings, m: Maths, i: int, j: int)
    requires layout.Valid() && st.Valid() && layout.length >= 0.0
    requires 0 <= i <= j < layout.Count()
    ensures var fs := RoadFaces(layout, st, m);
            && 0.0 <= fs[i].uvA.y <= fs[i].uvD.y
            && fs[i].uvA.y <= fs[j].uvA.y
            && fs[0].uvA.y == 0.0
            && fs[layout.Count() - 1].uvD.y == layout.length / st.roadTextureRepeat
  {
    var repeat := st.roadTextureRepeat;
    var last := layout.Count() - 1;
    RoadFaceV(layout, st, m, i);
    RoadFaceV(layout, st, m, j);
    RoadFaceV(layout, st, m, 0);
    RoadFaceV(layout, st, m, last);
    DistancesIncrease(layout, i, i + 1);
    DivideOrdered(layout.Distance(layout.keep[i]), layout.Distance(layout.keep[i + 1]), repeat);
    DistancesIncrease(layout, i, j);
    DivideOrdered(layout.Distance(layout.keep[i]), layout.Distance(layout.keep[j]), repeat);
  }

  /** The V coordinates of quad i: its near boundary's V on the first two corners, its far boundary's on the last two. */
  lemma RoadFaceV(layout: Layout, st: RoadSettings, m: Maths, i: int)
    requires layout.Valid() && st.Valid() && 0 <= i < layout.Count()
    ensures RoadFaces(layout, st, m)[i].uvA.y == BoundaryV(layout, st.roadTextureRepeat, layout.keep[i])
    ensures RoadFaces(layout, st, m)[i].uvD.y == BoundaryV(layout, st.roadTextureRepeat, layout.keep[i + 1])
  {
    assert RoadFaces(layout, st, m)[i] == RoadFace(layout, st, m, i);
  }
}
