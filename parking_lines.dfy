/**
  The parking lot's painted lines: one flat quad at each spot boundary, in
  the entry "parking_lines", without collision. The entry is declared for
  all `spotCount + 1` boundaries, but the first line is skipped without the
  start cap and the last one without the end cap, so with a cap off the end
  of the buffers stays unwritten and is uploaded as it was declared.
*/
module ParkingLines {
  import opened Wrappers
  import opened Geometry
  import opened Meshes
  import opened ParkingLot

  /** The entry of the lines. */
  const LinesKey := Named("parking_lines")

  /** Whether line i of the lot is drawn: the first needs the start cap and the last the end cap. */
  predicate Kept(st: LotSettings, i: int) {
    !(i == 0 && !st.linesCap.start) && !(i == st.spotCount && !st.linesCap.end)
  }

  /**
    `DrawLine` at x = i · spacing: a strip `linesWidth` wide across the row
    and `spotLength` long along the spot's lean, raised by `linesOffset`;
    its v coordinate runs from 0 to the length over the texture repeat.
  */
  function LineFace(st: LotSettings, m: Maths, i: int): (r: Face)
    ensures r.Quad?
  {
    var hw := st.linesWidth * 0.5;
    var angle := DegreeToRadian(st.spotAngle);
    var sin, cos := m.sin(angle), m.cos(angle);
    var lineDir := Vec3(-sin, cos, 0.0);
    var perpDir := Vec3(cos, sin, 0.0);
    var base := Vec3(SpotX(st, m, i), 0.0, 0.0);
    var p0 := Sub(base, Scale(perpDir, hw));
    var p1 := Add(base, Scale(perpDir, hw));
    var p2 := Add(p1, Scale(lineDir, st.spotLength));
    var p3 := Add(p0, Scale(lineDir, st.spotLength));
    var v0 := m.Divide(st.spotLength, st.linesTextureRepeat);
    FlatQuad(Add(p1, Scale(WorldUp, st.linesOffset)), Add(p2, Scale(WorldUp, st.linesOffset)),
             Add(p3, Scale(WorldUp, st.linesOffset)), Add(p0, Scale(WorldUp, st.linesOffset)),
             WorldUp, WorldForward, Vec2(1.0, 0.0), Vec2(1.0, v0), Vec2(0.0, v0), Vec2(0.0, 0.0))
  }

  /** The lines by boundary: boundary i holds its quad when it is kept and nothing otherwise. */
  function LineGroups(st: LotSettings, m: Maths): (r: seq<seq<Face>>)
    requires st.spotCount >= -1
    ensures |r| == st.spotCount + 1
    ensures forall i :: 0 <= i < |r| ==> r[i] == (if Kept(st, i) then [LineFace(st, m, i)] else [])
  {
    seq(st.spotCount + 1, i requires 0 <= i < st.spotCount + 1 => if Kept(st, i) then [LineFace(st, m, i)] else [])
  }

  /** The quads `BuildParkingLines` writes, boundary after boundary. */
  function DrawnLines(st: LotSettings, m: Maths): seq<Face>
    requires st.spotCount >= -1
  {
    Flatten(LineGroups(st, m))
  }

  /** How many lines are drawn: every boundary but the skipped caps. */
  function KeptCount(st: LotSettings): (r: int)
    requires st.spotCount >= -1
  {
    if st.spotCount == -1 then 0
    else if st.spotCount == 0 then (if st.linesCap.start && st.linesCap.end then 1 else 0)
    else st.spotCount + 1 - (if st.linesCap.start then 0 else 1) - (if st.linesCap.end then 0 else 1)
  }

  /** How many of the first k boundaries are drawn. */
  function KeptAmong(st: LotSettings, k: nat): nat {
    if k == 0 then 0 else KeptAmong(st, k - 1) + (if Kept(st, k - 1) then 1 else 0)
  }

  /** Among the first k boundaries, all are drawn but the first without the start cap and the last without the end cap. */
  lemma {:induction false} KeptAmongClosed(st: LotSettings, k: nat)
    requires k <= st.spotCount + 1
    ensures KeptAmong(st, k) == k - (if k > 0 && !st.linesCap.start then 1 else 0)
                                  - (if k > st.spotCount >= 0 && !st.linesCap.end && !(st.spotCount == 0 && !st.linesCap.start) then 1 else 0)
  {
    if k > 0 {
      KeptAmongClosed(st, k - 1);
    }
  }

  /** The first k boundaries' lines number as many as the drawn boundaries among them. */
  lemma {:induction false} DrawnPrefix(st: LotSettings, m: Maths, k: nat)
    requires st.spotCount >= -1 && k <= st.spotCount + 1
    ensures |Flatten(LineGroups(st, m)[..k])| == KeptAmong(st, k)
  {
    var groups := LineGroups(st, m);
    if k == 0 {
      assert groups[..0] == [];
    } else {
      DrawnPrefix(st, m, k - 1);
      FlattenNext(groups, k - 1);
    }
  }

  /**
    Exactly `KeptCount` lines are drawn, never more than the `spotCount + 1`
    declared for, and all of them exactly when both caps are on (or the lot
    has no boundary at all).
  */
  lemma DrawnCount(st: LotSettings, m: Maths)
    requires st.spotCount >= -1
    ensures |DrawnLines(st, m)| == KeptCount(st) <= st.spotCount + 1
    ensures |DrawnLines(st, m)| == st.spotCount + 1 <==> st.spotCount == -1 || (st.linesCap.start && st.linesCap.end)
  {
    var groups := LineGroups(st, m);
    DrawnPrefix(st, m, st.spotCount + 1);
    assert groups[..st.spotCount + 1] == groups;
    KeptAmongClosed(st, st.spotCount + 1);
  }

  /** The lines declared for but skipped: the first without the start cap, then the last without the end cap. */
  function SkippedLines(st: LotSettings, m: Maths): (r: seq<Face>)
    requires st.spotCount >= -1
    ensures |r| == st.spotCount + 1 - KeptCount(st)
    ensures forall j :: 0 <= j < |r| ==> r[j].Quad?
  {
    if st.spotCount == -1 then []
    else
      (if st.linesCap.start then [] else [LineFace(st, m, 0)])
      + (if st.linesCap.end || (st.spotCount == 0 && !st.linesCap.start) then [] else [LineFace(st, m, st.spotCount)])
  }

  /** Every boundary's line, the drawn ones first: what the entry's totals are declared for. */
  function DeclaredLines(st: LotSettings, m: Maths): seq<Face>
    requires st.spotCount >= -1
  {
    DrawnLines(st, m) + SkippedLines(st, m)
  }

  /** The declared lines are `spotCount + 1` quads: 4 vertices and 6 indices for each boundary. */
  lemma LinesCapacity(st: LotSettings, m: Maths)
    requires st.spotCount >= -1
    ensures |DeclaredLines(st, m)| == st.spotCount + 1
    ensures VertexCount(DeclaredLines(st, m)) == (st.spotCount + 1) * 4
    ensures IndexCount(DeclaredLines(st, m)) == (st.spotCount + 1) * 6
    ensures DeclaredLines(st, m)[..|DrawnLines(st, m)|] == DrawnLines(st, m)
  {
    var groups := LineGroups(st, m);
    DrawnCount(st, m);
    FlattenQuads(groups);
    QuadCounts(DeclaredLines(st, m));
  }

  /** The lines entry once `BuildParkingLines` is done: declared for every boundary, the drawn lines written. */
  ghost function LinesEntry(st: LotSettings, m: Maths): SubMesh
    requires st.spotCount >= -1
  {
    LinesCapacity(st, m);
    Partial(DeclaredLines(st, m), |DrawnLines(st, m)|, st.linesMaterial.GetOr(DefaultParkingMaterial), false)
  }

  /**
    The lines entry holds exactly the drawn lines in boundary order, in the
    lines' material and without collision. Its buffers are the totals of all
    `spotCount + 1` boundaries, and they are filled exactly when both caps
    are on; otherwise the unwritten tail keeps its default vertices and
    zero indices.
  */
  lemma LinesEntryHolds(st: LotSettings, m: Maths)
    requires st.spotCount >= -1
    ensures var e := LinesEntry(st, m);
            && Holds(e, DrawnLines(st, m))
            && e.material == st.linesMaterial.GetOr(DefaultParkingMaterial) && !e.hasCollision
            && |e.vertices| == (st.spotCount + 1) * 4 && |e.indices| == (st.spotCount + 1) * 6
            && (e.Full() <==> st.spotCount == -1 || (st.linesCap.start && st.linesCap.end))
  {
    var faces := DeclaredLines(st, m);
    var k := |DrawnLines(st, m)|;
    var material := st.linesMaterial.GetOr(DefaultParkingMaterial);
    LinesCapacity(st, m);
    DrawnCount(st, m);
    PartialHolds(faces, k, material, false);
    PartialKeeps(faces, k, material, false);
    FlattenQuads(LineGroups(st, m));
    QuadCounts(DrawnLines(st, m));
  }

  /**
    `BuildParkingLines`: declares the lines entry for `spotCount + 1` quads,
    in the lines' material or the default one and without collision, then
    draws each boundary's line but the skipped caps.
  */
  method BuildParkingLines(builder: MeshBuilder, st: LotSettings, m: Maths)
    requires builder.Valid() && st.spotCount >= -1
    modifies builder
    ensures builder.Valid()
    ensures builder.subMeshes == old(builder.subMeshes)[LinesKey := LinesEntry(st, m)]
    ensures builder.order == if LinesKey in old(builder.subMeshes) then old(builder.order) else old(builder.order) + [LinesKey]
    ensures builder.isDirty == old(builder.isDirty) && builder.castShadows == old(builder.castShadows)
    ensures builder.meshes == old(builder.meshes) && builder.collider == old(builder.collider)
  {
    var totalQuads := st.spotCount + 1;
    var material := st.linesMaterial.GetOr(DefaultParkingMaterial);
    ghost var faces := DeclaredLines(st, m);
    LinesCapacity(st, m);
    builder.InitSubmesh(LinesKey, totalQuads * 4, totalQuads * 6, material, false);
    ghost var table := builder.subMeshes;
    ghost var stages := StagesOf(faces, material, false);
    Declared(table, LinesKey, faces, material, false);
    assert stages[0] == Partial(faces, 0, material, false);
    EmitLines(builder, st, m, table, builder.order, stages, material);
    ghost var entry := Partial(faces, |DrawnLines(st, m)|, material, false);
    assert stages[|DrawnLines(st, m)|] == entry;
    PartialValid(faces, |DrawnLines(st, m)|, material, false);
    StoreValid(table, builder.order, LinesKey, entry);
    UpdateTwice(old(builder.subMeshes), LinesKey, table[LinesKey], entry);
  }

  /** The drawing loop of `BuildParkingLines`: boundary by boundary, skipping the first without the start cap and the last without the end cap. */
  method EmitLines(builder: MeshBuilder, st: LotSettings, m: Maths, ghost table: map<Key, SubMesh>,
                   ghost order: seq<Key>, ghost stages: seq<SubMesh>, ghost material: Material)
    requires st.spotCount >= -1 && LinesKey in table && builder.order == order
    requires Stages(stages, DeclaredLines(st, m), material, false)
    requires builder.subMeshes == table[LinesKey := stages[0]]
    modifies builder
    ensures |DrawnLines(st, m)| < |stages| && builder.subMeshes == table[LinesKey := stages[|DrawnLines(st, m)|]]
    ensures builder.order == order && builder.isDirty == old(builder.isDirty)
    ensures builder.castShadows == old(builder.castShadows)
    ensures builder.meshes == old(builder.meshes) && builder.collider == old(builder.collider)
  {
    ghost var groups := LineSlots(st, m);
    ghost var w := 0;
    assert groups[..0] == [];
    for i := 0 to st.spotCount + 1
      invariant w == |Flatten(groups[..i])| && w < |stages|
      invariant builder.subMeshes == table[LinesKey := stages[w]]
      invariant builder.order == order && builder.isDirty == old(builder.isDirty)
      invariant builder.castShadows == old(builder.castShadows)
      invariant builder.meshes == old(builder.meshes) && builder.collider == old(builder.collider)
    {
      FlattenGroup(groups, i);
      if i == 0 && !st.linesCap.start {
        continue;
      }
      if i == st.spotCount && !st.linesCap.end {
        continue;
      }
      assert Kept(st, i) && groups[i] == [LineFace(st, m, i)];
      var spacing := Spacing(st, m);
      var xPos := i as real * spacing;
      AtBoundary(st, m, i, spacing, xPos);
      DrawLine(builder, st, m, xPos, i, table, order, groups, stages, w, material);
      w := w + 1;
    }
    assert groups[..st.spotCount + 1] == LineGroups(st, m);
  }

  /**
    Line i stands at boundary i: the midpoint of its first edge is the spot
    origin x = i · spacing, raised by the offset. Its texture runs across the
    line from u = 1 to u = 0 and along it from v = 0 to the length over the
    texture repeat, which the setter keeps at least 1, so for a non-negative
    length v never exceeds the length.
  */
  lemma LinePlacement(st: LotSettings, m: Maths, i: int)
    requires st.Valid()
    ensures var f := LineFace(st, m, i);
            && Add(f.a, f.d) == Vec3(2.0 * SpotX(st, m, i), 0.0, 2.0 * st.linesOffset)
            && f.uvA == Vec2(1.0, 0.0) && f.uvD == Vec2(0.0, 0.0)
            && f.uvB == Vec2(1.0, st.spotLength / st.linesTextureRepeat) && f.uvC == Vec2(0.0, st.spotLength / st.linesTextureRepeat)
            && (st.spotLength >= 0.0 ==> 0.0 <= st.spotLength / st.linesTextureRepeat <= st.spotLength)
  {
    var r := st.linesTextureRepeat;
    if st.spotLength >= 0.0 {
      QuotientBelow(st.spotLength, 1.0, r);
    }
  }

  /** The boundaries' groups followed by one group of the skipped lines: the declared lines, grouped as they are written. */
  function LineSlots(st: LotSettings, m: Maths): (r: seq<seq<Face>>)
    requires st.spotCount >= -1
    ensures |r| == st.spotCount + 2 && r[..st.spotCount + 1] == LineGroups(st, m)
    ensures forall i :: 0 <= i <= st.spotCount ==> r[i] == (if Kept(st, i) then [LineFace(st, m, i)] else [])
    ensures Flatten(r) == DeclaredLines(st, m)
  {
    var lines := LineGroups(st, m);
    var r := lines + [SkippedLines(st, m)];
    assert r[..|lines|] == lines;
    FlattenNext(r, |lines|);
    assert r[..|lines| + 1] == r;
    r
  }

  /** The x position the loop computes for boundary i is that boundary's spot origin. */
  lemma AtBoundary(st: LotSettings, m: Maths, i: int, spacing: real, xPos: real)
    requires spacing == Spacing(st, m) && xPos == i as real * spacing
    ensures xPos == SpotX(st, m, i)
  {
  }

  /** `DrawLine`: writes the line at `xPos`, which is boundary i's position. */
  method DrawLine(builder: MeshBuilder, st: LotSettings, m: Maths, xPos: real, ghost i: nat,
                  ghost table: map<Key, SubMesh>, ghost order: seq<Key>, ghost groups: seq<seq<Face>>,
                  ghost stages: seq<SubMesh>, ghost w: nat, ghost material: Material)
    requires xPos == SpotX(st, m, i)
    requires LinesKey in table && builder.order == order && Stages(stages, Flatten(groups), material, false)
    requires i < |groups| && groups[i] == [LineFace(st, m, i)]
    requires w == |Flatten(groups[..i])| && w < |stages| && builder.subMeshes == table[LinesKey := stages[w]]
    modifies builder
    ensures w + 1 < |stages| && builder.subMeshes == table[LinesKey := stages[w + 1]]
    ensures builder.order == order && builder.isDirty == old(builder.isDirty)
    ensures builder.castShadows == old(builder.castShadows)
    ensures builder.meshes == old(builder.meshes) && builder.collider == old(builder.collider)
  {
    var up := WorldUp;
    var forward := WorldForward;
    var hw := st.linesWidth * 0.5;
    var angleRad := DegreeToRadian(st.spotAngle);
    var sinAngle := m.sin(angleRad);
    var cosAngle := m.cos(angleRad);
    var lineDir := Vec3(-sinAngle, cosAngle, 0.0);
    var perpDir := Vec3(cosAngle, sinAngle, 0.0);
    var basePos := Vec3(xPos, 0.0, 0.0);
    var p0 := Sub(basePos, Scale(perpDir, hw));
    var p1 := Add(basePos, Scale(perpDir, hw));
    var p2 := Add(p1, Scale(lineDir, st.spotLength));
    var p3 := Add(p0, Scale(lineDir, st.spotLength));
    var t0 := Add(p0, Scale(up, st.linesOffset));
    var t1 := Add(p1, Scale(up, st.linesOffset));
    var t2 := Add(p2, Scale(up, st.linesOffset));
    var t3 := Add(p3, Scale(up, st.linesOffset));
    var v0 := m.Divide(st.spotLength, st.linesTextureRepeat);
    var face := FlatQuad(t1, t2, t3, t0, up, forward, Vec2(1.0, 0.0), Vec2(1.0, v0), Vec2(0.0, v0), Vec2(0.0, 0.0));
    EmitGrouped(builder, LinesKey, table, order, groups, stages, i, w, 0, face, material, false);
  }
}
