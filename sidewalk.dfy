/**
  The road component's sidewalk generator: on each side of the road a raised
  kerb of three quads (top, inner wall, outer wall) per kept segment, textured
  along its length by a running average of the inner and outer edge lengths.
*/
module Sidewalk {
  import opened Wrappers
  import opened Geometry
  import opened Meshes
  import opened Segments
  import opened RoadLayout
  import opened Road

  const SidewalkKey := Named("sidewalk")
  const DefaultSidewalkMaterial := Material("materials/dev/reflectivity_70.vmat")

  /** The sidewalk material, or the fallback development material when none is set. */
  function SidewalkMaterialOf(st: RoadSettings): Material {
    st.sidewalkMaterial.GetOr(DefaultSidewalkMaterial)
  }

  /** Lateral offsets of the four sidewalk edges along a frame's right vector. */
  datatype Edges = Edges(leftInner: real, leftOuter: real, rightInner: real, rightOuter: real)

  /**
    The inner edges sit on the road's edges, half the road width from the
    centre line, and the outer edges one sidewalk width further out; the two
    sides mirror each other.
  */
  function SidewalkEdges(st: RoadSettings): (e: Edges)
    ensures e.leftInner == -e.rightInner && e.leftOuter == -e.rightOuter
    ensures e.rightInner * 2.0 == st.roadWidth
    ensures e.rightOuter - e.rightInner == st.sidewalkWidth
  {
    var roadEdgeOffset := st.roadWidth * 0.5;
    Edges(-roadEdgeOffset, -(roadEdgeOffset + st.sidewalkWidth), roadEdgeOffset, roadEdgeOffset + st.sidewalkWidth)
  }

  /**
    One side's corners over a segment, at its start (0) and end (1): bottom of
    the inner edge, bottom of the outer edge, and the two raised by the
    sidewalk height along the frame's up vector.
  */
  datatype Corners = Corners(b0: Vec3, b1: Vec3, o0: Vec3, o1: Vec3, t0: Vec3, t1: Vec3, to0: Vec3, to1: Vec3)

  function SideCorners(f0: Frame, f1: Frame, inner: real, outer: real, height: real): Corners {
    var b0 := Add(f0.position, Scale(f0.right, inner));
    var b1 := Add(f1.position, Scale(f1.right, inner));
    var o0 := Add(f0.position, Scale(f0.right, outer));
    var o1 := Add(f1.position, Scale(f1.right, outer));
    Corners(b0, b1, o0, o1,
            Add(b0, Scale(f0.up, height)), Add(b1, Scale(f1.up, height)),
            Add(o0, Scale(f0.up, height)), Add(o1, Scale(f1.up, height)))
  }

  /** How far one side's texture V advances over a segment: the mean of its inner and outer bottom edge lengths, in repeats. */
  function SideAdvance(c: Corners, repeat: real, m: Maths): (r: real)
    requires repeat > 0.0
    ensures m.Sane() ==> r >= 0.0
  {
    MeanPer(m.Distance(c.b0, c.b1), m.Distance(c.o0, c.o1), repeat)
  }

  function MeanPer(a: real, b: real, repeat: real): (r: real)
    requires repeat > 0.0
    ensures a >= 0.0 && b >= 0.0 ==> r >= 0.0
  {
    ((a + b) * 0.5) / repeat
  }

  /** The running texture V of the left and right sidewalks. */
  datatype SideV = SideV(left: real, right: real)

  /** Both sides' V advance over the segment from frame f0 to frame f1. */
  function Advance(f0: Frame, f1: Frame, st: RoadSettings, m: Maths): (r: SideV)
    requires st.Valid()
    ensures m.Sane() ==> r.left >= 0.0 && r.right >= 0.0
  {
    var e := SidewalkEdges(st);
    SideV(SideAdvance(SideCorners(f0, f1, e.leftInner, e.leftOuter, st.sidewalkHeight), st.sidewalkTextureRepeat, m),
          SideAdvance(SideCorners(f0, f1, e.rightInner, e.rightOuter, st.sidewalkHeight), st.sidewalkTextureRepeat, m))
  }

  /** Both sides' advance over kept segment k. */
  ghost function SegmentAdvance(layout: Layout, st: RoadSettings, m: Maths, k: int): (r: SideV)
    requires layout.Valid() && st.Valid() && 0 <= k < layout.Count()
    ensures m.Sane() ==> r.left >= 0.0 && r.right >= 0.0
  {
    Advance(layout.frames[layout.keep[k]], layout.frames[layout.keep[k + 1]], st, m)
  }

  /** The V accumulators after the first i kept segments: zero at the start, then each segment's advance added. */
  ghost function SidewalkV(layout: Layout, st: RoadSettings, m: Maths, i: int): SideV
    requires layout.Valid() && st.Valid() && 0 <= i <= layout.Count()
  {
    if i == 0 then SideV(0.0, 0.0)
    else
      var prev := SidewalkV(layout, st, m, i - 1);
      var step := SegmentAdvance(layout, st, m, i - 1);
      SideV(prev.left + step.left, prev.right + step.right)
  }

  /** The accumulators after each number of kept segments, from none to all. */
  ghost function SidewalkVs(layout: Layout, st: RoadSettings, m: Maths): (r: seq<SideV>)
    requires layout.Valid() && st.Valid()
    ensures |r| == layout.Count() + 1
  {
    seq(layout.Count() + 1, k requires 0 <= k <= layout.Count() => SidewalkV(layout, st, m, k))
  }

  /**
    `vs` is a list of accumulators for the layout: both start at zero and each
    kept segment adds its advance.
  */
  ghost predicate Accumulators(vs: seq<SideV>, layout: Layout, st: RoadSettings, m: Maths)
    requires layout.Valid() && st.Valid()
  {
    && |vs| == layout.Count() + 1
    && vs[0] == SideV(0.0, 0.0)
    && forall k {:trigger SegmentAdvance(layout, st, m, k)} :: 0 <= k < layout.Count() ==>
         vs[k + 1] == SideV(vs[k].left + SegmentAdvance(layout, st, m, k).left, vs[k].right + SegmentAdvance(layout, st, m, k).right)
  }

  lemma SidewalkVsAccumulate(layout: Layout, st: RoadSettings, m: Maths)
    requires layout.Valid() && st.Valid()
    ensures Accumulators(SidewalkVs(layout, st, m), layout, st, m)
  {
    var vs := SidewalkVs(layout, st, m);
    assert vs[0] == SidewalkV(layout, st, m, 0);
    forall k | 0 <= k < layout.Count()
      ensures vs[k + 1] == SideV(vs[k].left + SegmentAdvance(layout, st, m, k).left, vs[k].right + SegmentAdvance(layout, st, m, k).right)
    {
      assert vs[k + 1] == SidewalkV(layout, st, m, k + 1);
      assert vs[k] == SidewalkV(layout, st, m, k);
    }
  }

  /**
    With a well-behaved length function the accumulators start at zero and
    never decrease: edge lengths are non-negative and the repeat is at least 1.
  */
  lemma {:induction false} AccumulatorsIncrease(vs: seq<SideV>, layout: Layout, st: RoadSettings, m: Maths, i: int, j: int)
    requires layout.Valid() && st.Valid() && m.Sane() && Accumulators(vs, layout, st, m)
    requires 0 <= i <= j <= layout.Count()
    ensures 0.0 <= vs[i].left <= vs[j].left && 0.0 <= vs[i].right <= vs[j].right
    decreases j
  {
    if i < j {
      AccumulatorsIncrease(vs, layout, st, m, i, j - 1);
      var step := SegmentAdvance(layout, st, m, j - 1);
    } else if i > 0 {
      AccumulatorsIncrease(vs, layout, st, m, i - 1, i - 1);
      var step := SegmentAdvance(layout, st, m, i - 1);
    }
  }

  /** The running sidewalk V of each side starts at zero and never decreases along the road. */
  lemma SidewalkVIncreasing(layout: Layout, st: RoadSettings, m: Maths, i: int, j: int)
    requires layout.Valid() && st.Valid() && m.Sane()
    requires 0 <= i <= j <= layout.Count()
    ensures SidewalkV(layout, st, m, 0) == SideV(0.0, 0.0)
    ensures 0.0 <= SidewalkV(layout, st, m, i).left <= SidewalkV(layout, st, m, j).left
    ensures 0.0 <= SidewalkV(layout, st, m, i).right <= SidewalkV(layout, st, m, j).right
  {
    var vs := SidewalkVs(layout, st, m);
    SidewalkVsAccumulate(layout, st, m);
    AccumulatorsIncrease(vs, layout, st, m, i, j);
    assert vs[i] == SidewalkV(layout, st, m, i) && vs[j] == SidewalkV(layout, st, m, j);
  }

  /**
    The six quads of the segment from frame f0 to frame f1, in emission order:
    left top, left inner wall, left outer wall, right top, right inner wall,
    right outer wall. `v0` and `v1` are the accumulators before and after the
    segment; the walls take the sidewalk height in repeats as their U extent.
  */
  function SidewalkSegment(f0: Frame, f1: Frame, st: RoadSettings, m: Maths, v0: SideV, v1: SideV): (r: seq<Face>)
    requires st.Valid()
    ensures |r| == 6 && forall j :: 0 <= j < 6 ==> r[j].Quad?
  {
    seq(6, t requires 0 <= t < 6 => SidewalkQuad(f0, f1, st, m, v0, v1, t))
  }

  /** Quad t of `SidewalkSegment`, with its corners, normals, tangent and texture coordinates. */
  function SidewalkQuad(f0: Frame, f1: Frame, st: RoadSettings, m: Maths, v0: SideV, v1: SideV, t: int): (q: Face)
    requires st.Valid() && 0 <= t < 6
    ensures q.Quad?
  {
    var u0 := f0.up;
    var u1 := f1.up;
    var r0 := f0.right;
    var r1 := f1.right;
    var forward := m.normal(Sub(f1.position, f0.position));
    var v2 := st.sidewalkHeight / st.sidewalkTextureRepeat;
    var e := SidewalkEdges(st);
    var l := SideCorners(f0, f1, e.leftInner, e.leftOuter, st.sidewalkHeight);
    var r := SideCorners(f0, f1, e.rightInner, e.rightOuter, st.sidewalkHeight);
    if t == 0 then
      Quad(l.t0, l.t1, l.to1, l.to0, u0, u1, u1, u0, forward,
        Vec2(0.0, v0.left), Vec2(0.0, v1.left), Vec2(1.0, v1.left), Vec2(1.0, v0.left))
    else if t == 1 then
      Quad(l.b0, l.b1, l.t1, l.t0, r0, r1, r1, r0, forward,
        Vec2(v2, v0.left), Vec2(v2, v1.left), Vec2(0.0, v1.left), Vec2(0.0, v0.left))
    else if t == 2 then
      Quad(l.o0, l.to0, l.to1, l.o1, Neg(r0), Neg(r0), Neg(r1), Neg(r1), forward,
        Vec2(1.0 - v2, 1.0 - v0.left), Vec2(1.0, 1.0 - v0.left), Vec2(1.0, 1.0 - v1.left), Vec2(1.0 - v2, 1.0 - v1.left))
    else if t == 3 then
      Quad(r.t0, r.to0, r.to1, r.t1, u0, u0, u1, u1, forward,
        Vec2(0.0, v0.right), Vec2(1.0, v0.right), Vec2(1.0, v1.right), Vec2(0.0, v1.right))
    else if t == 4 then
      Quad(r.b0, r.t0, r.t1, r.b1, Neg(r0), Neg(r0), Neg(r1), Neg(r1), forward,
        Vec2(v2, v0.right), Vec2(0.0, v0.right), Vec2(0.0, v1.right), Vec2(v2, v1.right))
    else
      Quad(r.o0, r.o1, r.to1, r.to0, r0, r1, r1, r0, forward,
        Vec2(1.0 - v2, 1.0 - v0.right), Vec2(1.0 - v2, 1.0 - v1.right), Vec2(1.0, 1.0 - v1.right), Vec2(1.0, 1.0 - v0.right))
  }


  /** The six quads of kept segment i, textured with the accumulators before and after it. */
  ghost function SegmentQuads(layout: Layout, st: RoadSettings, m: Maths, vs: seq<SideV>, i: int): (r: seq<Face>)
    requires layout.Valid() && st.Valid() && |vs| == layout.Count() + 1 && 0 <= i < layout.Count()
    ensures |r| == 6 && forall j :: 0 <= j < 6 ==> r[j].Quad?
  {
    SidewalkSegment(layout.frames[layout.keep[i]], layout.frames[layout.keep[i + 1]], st, m, vs[i], vs[i + 1])
  }

  /** The quads of every kept segment, six per segment, textured by `vs`. */
  ghost function SegmentsWith(layout: Layout, st: RoadSettings, m: Maths, vs: seq<SideV>): (r: seq<seq<Face>>)
    requires layout.Valid() && st.Valid() && |vs| == layout.Count() + 1
    ensures |r| == layout.Count()
    ensures forall i :: 0 <= i < |r| ==> |r[i]| == 6
    ensures forall i, j :: 0 <= i < |r| && 0 <= j < |r[i]| ==> r[i][j].Quad?
  {
    seq(layout.Count(), i requires 0 <= i < layout.Count() => SegmentQuads(layout, st, m, vs, i))
  }

  /** All the quads, six per kept segment in emission order, textured by `vs`. */
  ghost function FacesWith(layout: Layout, st: RoadSettings, m: Maths, vs: seq<SideV>): (r: seq<Face>)
    requires layout.Valid() && st.Valid() && |vs| == layout.Count() + 1
    ensures |r| == 6 * layout.Count()
    ensures forall j :: 0 <= j < |r| ==> r[j].Quad?
  {
    var segments := SegmentsWith(layout, st, m, vs);
    FlattenLength(segments, 6);
    FlattenQuads(segments);
    Flatten(segments)
  }

  /** The sidewalk's quads, textured by the running accumulators. */
  ghost function SidewalkFaces(layout: Layout, st: RoadSettings, m: Maths): (r: seq<Face>)
    requires layout.Valid() && st.Valid()
    ensures |r| == 6 * layout.Count()
  {
    FacesWith(layout, st, m, SidewalkVs(layout, st, m))
  }

  /** The declared totals, 24 vertices and 36 indices per kept segment, are exactly what the quads take. */
  lemma SidewalkCapacity(layout: Layout, st: RoadSettings, m: Maths)
    requires layout.Valid() && st.Valid()
    ensures VertexCount(SidewalkFaces(layout, st, m)) == layout.Count() * 24
    ensures IndexCount(SidewalkFaces(layout, st, m)) == layout.Count() * 36
  {
    QuadCounts(FacesWith(layout, st, m, SidewalkVs(layout, st, m)));
  }

  /** The six quads of segment i are the slice 6i .. 6i+6 of the full list. */
  lemma SegmentSlots(layout: Layout, st: RoadSettings, m: Maths, vs: seq<SideV>, i: int)
    requires layout.Valid() && st.Valid() && |vs| == layout.Count() + 1 && 0 <= i < layout.Count()
    ensures FacesWith(layout, st, m, vs)[6 * i .. 6 * i + 6] == SegmentQuads(layout, st, m, vs, i)
  {
    FlattenSlot(SegmentsWith(layout, st, m, vs), 6, i);
  }

  /** Quad t of segment i sits at position 6i + t of the full list. */
  lemma FaceAt(layout: Layout, st: RoadSettings, m: Maths, vs: seq<SideV>, i: int, t: int)
    requires layout.Valid() && st.Valid() && |vs| == layout.Count() + 1 && 0 <= i < layout.Count() && 0 <= t < 6
    ensures FacesWith(layout, st, m, vs)[6 * i + t] == SegmentQuads(layout, st, m, vs, i)[t]
  {
    SegmentSlots(layout, st, m, vs, i);
    assert FacesWith(layout, st, m, vs)[6 * i + t] == FacesWith(layout, st, m, vs)[6 * i .. 6 * i + 6][t];
  }

  /** `faces` holds six quads per kept segment, segment i's at slots 6i .. 6i+6. */
  ghost predicate LaidOut(faces: seq<Face>, layout: Layout, st: RoadSettings, m: Maths, vs: seq<SideV>)
    requires layout.Valid() && st.Valid() && |vs| == layout.Count() + 1
  {
    && |faces| == 6 * layout.Count()
    && forall i {:trigger SegmentQuads(layout, st, m, vs, i)} :: 0 <= i < layout.Count() ==>
         faces[6 * i .. 6 * i + 6] == SegmentQuads(layout, st, m, vs, i)
  }

  lemma FacesWithLaidOut(layout: Layout, st: RoadSettings, m: Maths, vs: seq<SideV>)
    requires layout.Valid() && st.Valid() && |vs| == layout.Count() + 1
    ensures LaidOut(FacesWith(layout, st, m, vs), layout, st, m, vs)
  {
    forall i | 0 <= i < layout.Count()
      ensures FacesWith(layout, st, m, vs)[6 * i .. 6 * i + 6] == SegmentQuads(layout, st, m, vs, i)
    {
      SegmentSlots(layout, st, m, vs, i);
    }
  }

  /** The sidewalk entry for a spline: exactly its quads, with collision. */
  ghost function SidewalkEntry(spline: Spline, st: RoadSettings, m: Maths): SubMesh
    requires st.Valid()
  {
    var layout := PlannedLayout(spline, st, m);
    Filled(SidewalkFaces(layout, st, m), SidewalkMaterialOf(st), true)
  }

  /**
    Generates the sidewalks. Without a sidewalk nothing is declared. Otherwise
    it samples the layout, declares the "sidewalk" entry with 24 vertices and
    36 indices per kept segment and writes six quads per segment, ending
    exactly at capacity.
  */
  method BuildSidewalk(builder: MeshBuilder, spline: Spline, st: RoadSettings, m: Maths)
    requires builder.Valid() && st.Valid()
    modifies builder
    ensures builder.Valid()
    ensures builder.subMeshes == if st.hasSidewalk then old(builder.subMeshes)[SidewalkKey := SidewalkEntry(spline, st, m)]
                                 else old(builder.subMeshes)
    ensures builder.order == if !st.hasSidewalk || SidewalkKey in old(builder.subMeshes) then old(builder.order)
                             else old(builder.order) + [SidewalkKey]
    ensures builder.isDirty == old(builder.isDirty) && builder.castShadows == old(builder.castShadows)
    ensures builder.meshes == old(builder.meshes) && builder.collider == old(builder.collider)
  {
    if !st.hasSidewalk {
      return;
    }
    var layout := SampleLayout(spline, st, m);
    WriteSidewalk(builder, layout, st, m);
  }

  /** The part of `BuildSidewalk` after sampling: declare the entry, then write six quads per kept segment. */
  method WriteSidewalk(builder: MeshBuilder, layout: Layout, st: RoadSettings, m: Maths)
    requires builder.Valid() && layout.Valid() && st.Valid()
    modifies builder
    ensures builder.Valid()
    ensures builder.subMeshes == old(builder.subMeshes)[SidewalkKey := Filled(SidewalkFaces(layout, st, m), SidewalkMaterialOf(st), true)]
    ensures builder.order == if SidewalkKey in old(builder.subMeshes) then old(builder.order) else old(builder.order) + [SidewalkKey]
    ensures builder.isDirty == old(builder.isDirty) && builder.castShadows == old(builder.castShadows)
    ensures builder.meshes == old(builder.meshes) && builder.collider == old(builder.collider)
  {
    var finalSegmentCount := |layout.keep| - 1;
    var material := SidewalkMaterialOf(st);
    SidewalkCapacity(layout, st, m);
    builder.InitSubmesh(SidewalkKey, finalSegmentCount * 24, finalSegmentCount * 36, material, true);
    ghost var vs := SidewalkVs(layout, st, m);
    ghost var faces := FacesWith(layout, st, m, vs);
    SidewalkVsAccumulate(layout, st, m);
    FacesWithLaidOut(layout, st, m, vs);
    ghost var declared := builder.subMeshes;
    Declared(declared, SidewalkKey, faces, material, true);
    EmitSidewalkQuads(builder, declared, builder.order, layout, st, m, faces, vs, material);
    FinishEntry(declared, builder.order, SidewalkKey, faces, material, true);
    UpdateTwice(old(builder.subMeshes), SidewalkKey, declared[SidewalkKey], Filled(faces, material, true));
  }

  /**
    The second pass of `BuildSidewalk`: per kept segment, advance both V
    accumulators and write the segment's six quads.
  */
  method EmitSidewalkQuads(builder: MeshBuilder, ghost table: map<Key, SubMesh>, ghost order: seq<Key>,
                           layout: Layout, st: RoadSettings, m: Maths,
                           ghost faces: seq<Face>, ghost vs: seq<SideV>, ghost material: Material)
    requires layout.Valid() && st.Valid()
    requires Accumulators(vs, layout, st, m) && LaidOut(faces, layout, st, m, vs)
    requires SidewalkKey in table && builder.order == order
    requires builder.subMeshes == table[SidewalkKey := Partial(faces, 0, material, true)]
    modifies builder
    ensures builder.subMeshes == table[SidewalkKey := Partial(faces, |faces|, material, true)]
    ensures builder.order == order && builder.isDirty == old(builder.isDirty)
    ensures builder.castShadows == old(builder.castShadows)
    ensures builder.meshes == old(builder.meshes) && builder.collider == old(builder.collider)
  {
    var finalSegmentCount := |layout.keep| - 1;
    var avgUVDist := SideV(0.0, 0.0);
    var i := 0;
    ghost var written := 0;
    ghost var stages := StagesOf(faces, material, true);
    while i < finalSegmentCount
      invariant 0 <= i <= finalSegmentCount && written == 6 * i
      invariant builder.subMeshes == table[SidewalkKey := stages[written]]
      invariant avgUVDist == vs[i]
      invariant builder.order == order && builder.isDirty == old(builder.isDirty)
      invariant builder.castShadows == old(builder.castShadows)
      invariant builder.meshes == old(builder.meshes) && builder.collider == old(builder.collider)
    {
      avgUVDist := EmitSegment(builder, table, order, layout, st, m, faces, vs, material, stages, written, i, avgUVDist);
      i := i + 1;
      written := written + 6;
    }
    assert written == |faces|;
    assert stages[written] == Partial(faces, |faces|, material, true);
  }

  /**
    One iteration of the sidewalk loop: both accumulators advance by the
    mean of their side's edge lengths in repeats, then the segment's six
    quads are written.
  */
  method EmitSegment(builder: MeshBuilder, ghost table: map<Key, SubMesh>, ghost order: seq<Key>,
                     layout: Layout, st: RoadSettings, m: Maths,
                     ghost faces: seq<Face>, ghost vs: seq<SideV>, ghost material: Material,
                     ghost stages: seq<SubMesh>, ghost written: nat, i: int, before: SideV) returns (after: SideV)
    requires layout.Valid() && st.Valid() && 0 <= i < layout.Count()
    requires Accumulators(vs, layout, st, m) && LaidOut(faces, layout, st, m, vs)
    requires SidewalkKey in table && builder.order == order && Stages(stages, faces, material, true)
    requires written == 6 * i && builder.subMeshes == table[SidewalkKey := stages[written]]
    requires before == vs[i]
    modifies builder
    ensures written + 6 < |stages|
    ensures after == vs[i + 1]
    ensures builder.subMeshes == table[SidewalkKey := stages[written + 6]]
    ensures builder.order == order && builder.isDirty == old(builder.isDirty)
    ensures builder.castShadows == old(builder.castShadows)
    ensures builder.meshes == old(builder.meshes) && builder.collider == old(builder.collider)
  {
    var f0 := layout.frames[layout.keep[i]];
    var f1 := layout.frames[layout.keep[i + 1]];
    var step := Advance(f0, f1, st, m);
    after := SideV(before.left + step.left, before.right + step.right);
    AccumulatorStep(layout, st, m, vs, i);
    var quads := SidewalkSegment(f0, f1, st, m, before, after);
    SegmentSlotsHold(layout, st, m, faces, vs, i, written, before, after);
    assert stages[written] == Partial(faces, written, material, true);
    EmitSegmentQuads(builder, table, order, faces, written, quads, material);
    assert stages[written + 6] == Partial(faces, written + 6, material, true);
  }

  /** One advance takes the accumulators before segment i to those after it. */
  lemma AccumulatorStep(layout: Layout, st: RoadSettings, m: Maths, vs: seq<SideV>, i: int)
    requires layout.Valid() && st.Valid() && 0 <= i < layout.Count() && Accumulators(vs, layout, st, m)
    ensures var step := Advance(layout.frames[layout.keep[i]], layout.frames[layout.keep[i + 1]], st, m);
            vs[i + 1] == SideV(vs[i].left + step.left, vs[i].right + step.right)
  {
    var step := SegmentAdvance(layout, st, m, i);
  }

  /** Segment i's slots hold the six quads built from its frames and the accumulators around it. */
  lemma SegmentSlotsHold(layout: Layout, st: RoadSettings, m: Maths, faces: seq<Face>, vs: seq<SideV>, i: int,
                         start: int, v0: SideV, v1: SideV)
    requires layout.Valid() && st.Valid() && |vs| == layout.Count() + 1 && 0 <= i < layout.Count()
    requires LaidOut(faces, layout, st, m, vs)
    requires start == 6 * i && v0 == vs[i] && v1 == vs[i + 1]
    ensures 0 <= start && start + 6 <= |faces|
    ensures faces[start .. start + 6]
         == SidewalkSegment(layout.frames[layout.keep[i]], layout.frames[layout.keep[i + 1]], st, m, v0, v1)
  {
    assert faces[6 * i .. 6 * i + 6] == SegmentQuads(layout, st, m, vs, i);
  }

  /** Writes one segment's six quads, in order, into the sidewalk entry. */
  method EmitSegmentQuads(builder: MeshBuilder, ghost table: map<Key, SubMesh>, ghost order: seq<Key>,
                          ghost faces: seq<Face>, ghost start: nat, quads: seq<Face>, ghost material: Material)
    requires SidewalkKey in table && builder.order == order
    requires |quads| == 6 && start + 6 <= |faces| && faces[start .. start + 6] == quads
    requires builder.subMeshes == table[SidewalkKey := Partial(faces, start, material, true)]
    modifies builder
    ensures builder.subMeshes == table[SidewalkKey := Partial(faces, start + 6, material, true)]
    ensures builder.order == order && builder.isDirty == old(builder.isDirty)
    ensures builder.castShadows == old(builder.castShadows)
    ensures builder.meshes == old(builder.meshes) && builder.collider == old(builder.collider)
  {
    assert forall t :: 0 <= t < 6 ==> faces[start + t] == quads[t];
    EmitNext(builder, SidewalkKey, table, order, faces, start, quads[0], material, true);
    EmitNext(builder, SidewalkKey, table, order, faces, start + 1, quads[1], material, true);
    EmitNext(builder, SidewalkKey, table, order, faces, start + 2, quads[2], material, true);
    EmitNext(builder, SidewalkKey, table, order, faces, start + 3, quads[3], material, true);
    EmitNext(builder, SidewalkKey, table, order, faces, start + 4, quads[4], material, true);
    EmitNext(builder, SidewalkKey, table, order, faces, start + 5, quads[5], material, true);
  }

  /** The V coordinates of a segment's top quads: the accumulators before it at the near end, after it at the far end. */
  lemma TopV(f0: Frame, f1: Frame, st: RoadSettings, m: Maths, v0: SideV, v1: SideV)
    requires st.Valid()
    ensures var q := SidewalkSegment(f0, f1, st, m, v0, v1);
            && q[0].uvA.y == v0.left && q[0].uvB.y == v1.left
            && q[3].uvA.y == v0.right && q[3].uvD.y == v1.right
  {
  }

  /**
    Per side, each segment's V starts where the previous segment's ended: the
    top quads' far V is the next segment's near V.
  */
  lemma ContinuousWith(layout: Layout, st: RoadSettings, m: Maths, vs: seq<SideV>, i: int)
    requires layout.Valid() && st.Valid() && |vs| == layout.Count() + 1 && 0 <= i < layout.Count() - 1
    ensures var fs := FacesWith(layout, st, m, vs);
            && fs[6 * i].uvB.y == fs[6 * (i + 1)].uvA.y
            && fs[6 * i + 3].uvD.y == fs[6 * (i + 1) + 3].uvA.y
  {
    FaceAt(layout, st, m, vs, i, 0);
    FaceAt(layout, st, m, vs, i, 3);
    FaceAt(layout, st, m, vs, i + 1, 0);
    FaceAt(layout, st, m, vs, i + 1, 3);
    TopV(layout.frames[layout.keep[i]], layout.frames[layout.keep[i + 1]], st, m, vs[i], vs[i + 1]);
    TopV(layout.frames[layout.keep[i + 1]], layout.frames[layout.keep[i + 2]], st, m, vs[i + 1], vs[i + 2]);
  }

  lemma SidewalkVContinuous(layout: Layout, st: RoadSettings, m: Maths, i: int)
    requires layout.Valid() && st.Valid() && 0 <= i < layout.Count() - 1
    ensures var fs := SidewalkFaces(layout, st, m);
            && fs[6 * i].uvB.y == fs[6 * (i + 1)].uvA.y
            && fs[6 * i + 3].uvD.y == fs[6 * (i + 1) + 3].uvA.y
  {
    ContinuousWith(layout, st, m, SidewalkVs(layout, st, m), i);
  }

  /** Offsetting by a negated distance is subtracting the offset. */
  lemma NegatedOffset(p: Vec3, r: Vec3, d: real)
    ensures Add(p, Scale(r, -d)) == Sub(p, Scale(r, d))
  {
  }

  /**
    The bottom edges of a segment's inner walls run along the road's edges,
    half the road width either side of the centre line, and both walls take
    the sidewalk height in repeats as their U extent.
  */
  lemma InnerWalls(f0: Frame, f1: Frame, st: RoadSettings, m: Maths, v0: SideV, v1: SideV)
    requires st.Valid()
    ensures var q := SidewalkSegment(f0, f1, st, m, v0, v1);
            var half := st.roadWidth * 0.5;
            && q[1].a == Sub(f0.position, Scale(f0.right, half)) && q[1].b == Sub(f1.position, Scale(f1.right, half))
            && q[4].a == Add(f0.position, Scale(f0.right, half)) && q[4].d == Add(f1.position, Scale(f1.right, half))
            && q[1].uvA.x == q[4].uvA.x == st.sidewalkHeight / st.sidewalkTextureRepeat
  {
    NegatedOffset(f0.position, f0.right, st.roadWidth * 0.5);
    NegatedOffset(f1.position, f1.right, st.roadWidth * 0.5);
  }

  /**
    The sidewalks meet the road: the bottom of each inner wall runs along the
    road quad's edge on that side, and both inner walls take the same U
    extent, the sidewalk height in repeats.
  */
  lemma MeetsRoadWith(layout: Layout, st: RoadSettings, m: Maths, vs: seq<SideV>, i: int)
    requires layout.Valid() && st.Valid() && |vs| == layout.Count() + 1 && 0 <= i < layout.Count()
    ensures var fs := FacesWith(layout, st, m, vs);
            var road := RoadFaces(layout, st, m)[i];
            && fs[6 * i + 1].a == road.a && fs[6 * i + 1].b == road.d
            && fs[6 * i + 4].a == road.b && fs[6 * i + 4].d == road.c
            && fs[6 * i + 1].uvA.x == fs[6 * i + 4].uvA.x == st.sidewalkHeight / st.sidewalkTextureRepeat
  {
    FaceAt(layout, st, m, vs, i, 1);
    FaceAt(layout, st, m, vs, i, 4);
    InnerWalls(layout.frames[layout.keep[i]], layout.frames[layout.keep[i + 1]], st, m, vs[i], vs[i + 1]);
    assert RoadFaces(layout, st, m)[i] == RoadFace(layout, st, m, i);
  }

  lemma SidewalkMeetsRoad(layout: Layout, st: RoadSettings, m: Maths, i: int)
    requires layout.Valid() && st.Valid() && 0 <= i < layout.Count()
    ensures var fs := SidewalkFaces(layout, st, m);
            var road := RoadFaces(layout, st, m)[i];
            && fs[6 * i + 1].a == road.a && fs[6 * i + 1].b == road.d
            && fs[6 * i + 4].a == road.b && fs[6 * i + 4].d == road.c
            && fs[6 * i + 1].uvA.x == fs[6 * i + 4].uvA.x == st.sidewalkHeight / st.sidewalkTextureRepeat
  {
    MeetsRoadWith(layout, st, m, SidewalkVs(layout, st, m), i);
  }
}
