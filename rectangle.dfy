/**
  The rectangular intersection: a centre road quad with one extension quad per
  open side (exit), and a sidewalk made of a three-quad strip along every
  closed side plus a corner cap at each corner, sealed on the sides that are
  exits. Each build counts its quads from the exit flags, declares its entry
  with exactly that room and then fills it.
*/
module RectangleIntersection {
  import opened Wrappers
  import opened Geometry
  import opened Meshes
  import opened Road
  import opened Sidewalk
  import opened IntersectionParts

  // ------------------------------------------------------------------ exits

  /** The exit flags of the `[Flags]` enumeration; the exits value may hold any combination (or stray bits). */
  const NoExit: bv32 := 0
  const North: bv32 := 1
  const East: bv32 := 2
  const South: bv32 := 4
  const West: bv32 := 8

  /** `Enum.HasFlag`: every bit of `flag` is set in `exits`. */
  predicate HasFlag(exits: bv32, flag: bv32) {
    exits & flag == flag
  }

  function Bit(b: bool): nat { if b then 1 else 0 }

  /** The number of open sides among north, east, south and west. */
  function ExitCount(exits: bv32): (r: nat)
    ensures r <= 4
    ensures r == 0 <==> !HasFlag(exits, North) && !HasFlag(exits, East) && !HasFlag(exits, South) && !HasFlag(exits, West)
  {
    Bit(HasFlag(exits, North)) + Bit(HasFlag(exits, East)) + Bit(HasFlag(exits, South)) + Bit(HasFlag(exits, West))
  }

  /** The number of closed sides, each of which gets a strip. */
  function SideCount(exits: bv32): nat {
    Bit(!HasFlag(exits, North)) + Bit(!HasFlag(exits, South)) + Bit(!HasFlag(exits, East)) + Bit(!HasFlag(exits, West))
  }

  /** The number of seal quads the sidewalk build reserves: two per open side. */
  function EndCapCount(exits: bv32): nat {
    2 * Bit(HasFlag(exits, North)) + 2 * Bit(HasFlag(exits, South)) + 2 * Bit(HasFlag(exits, East)) + 2 * Bit(HasFlag(exits, West))
  }

  /**
    The counts split the four sides: every side is open or closed, two seals
    are reserved per open side, and only the four side bits matter (no exits
    exactly when none of them is set).
  */
  lemma SideCounts(exits: bv32)
    ensures ExitCount(exits) + SideCount(exits) == 4
    ensures EndCapCount(exits) == 2 * ExitCount(exits)
    ensures ExitCount(exits) == ExitCount(exits & 15)
    ensures ExitCount(exits) == 0 <==> exits & 15 == 0
  {
  }

  /** The road build's exit counter: one per open side. */
  method CountExits(exits: bv32) returns (exitCount: nat)
    ensures exitCount == ExitCount(exits)
  {
    exitCount := 0;
    if HasFlag(exits, North) { exitCount := exitCount + 1; }
    if HasFlag(exits, East) { exitCount := exitCount + 1; }
    if HasFlag(exits, South) { exitCount := exitCount + 1; }
    if HasFlag(exits, West) { exitCount := exitCount + 1; }
  }

  /** The sidewalk build's counters: one strip per closed side, two seals per open side. */
  method CountSidewalkParts(exits: bv32) returns (sideCount: nat, endCapCount: nat)
    ensures sideCount == SideCount(exits) && endCapCount == EndCapCount(exits)
  {
    sideCount := 0;
    if !HasFlag(exits, North) { sideCount := sideCount + 1; }
    if !HasFlag(exits, South) { sideCount := sideCount + 1; }
    if !HasFlag(exits, East) { sideCount := sideCount + 1; }
    if !HasFlag(exits, West) { sideCount := sideCount + 1; }
    endCapCount := 0;
    if HasFlag(exits, North) { endCapCount := endCapCount + 2; }
    if HasFlag(exits, South) { endCapCount := endCapCount + 2; }
    if HasFlag(exits, East) { endCapCount := endCapCount + 2; }
    if HasFlag(exits, West) { endCapCount := endCapCount + 2; }
  }

  /** Whether the corner with sides a and b gets a seal quad on each. */
  function CornerSeals(aIsExit: bool, bIsExit: bool): nat { Bit(aIsExit) + Bit(bIsExit) }

  /**
    The corner table SW(west, south), SE(east, south), NE(east, north),
    NW(west, north) names each side exactly twice, so the corners seal two
    quads per open side: exactly the seal room the sidewalk reserves.
  */
  lemma CornerSealsPerExit(exits: bv32)
    ensures var n, s, e, w := HasFlag(exits, North), HasFlag(exits, South), HasFlag(exits, East), HasFlag(exits, West);
            CornerSeals(w, s) + CornerSeals(e, s) + CornerSeals(e, n) + CornerSeals(w, n) == EndCapCount(exits)
  {
  }

  // --------------------------------------------------------------- geometry

  /** The rectangle's size and exits. */
  datatype Rectangle = Rectangle(width: real, length: real, exits: bv32)

  /** The four road corners, south-west, north-west, north-east and south-east. */
  datatype Corners = RoadCorner(sw: Vec3, nw: Vec3, ne: Vec3, se: Vec3)

  function RoadCorners(rect: Rectangle, b: Basis): Corners {
    var hw := rect.width * 0.5;
    var hl := rect.length * 0.5;
    RoadCorner(Sub(Scale(Neg(b.right), hw), Scale(b.forward, hl)),
            Add(Scale(Neg(b.right), hw), Scale(b.forward, hl)),
            Add(Scale(b.right, hw), Scale(b.forward, hl)),
            Sub(Scale(b.right, hw), Scale(b.forward, hl)))
  }

  /** An optional group of faces. */
  function When(c: bool, fs: seq<Face>): seq<Face> { if c then fs else [] }

  // -------------------------------------------------------------------- road

  /** The centre quad, its texture scaled by the road's texture repeat. */
  function CenterQuad(rect: Rectangle, repeat: real, b: Basis, m: Maths): (r: Face)
    ensures r.Quad? && r.normalA == b.up && r.normalB == b.up && r.normalC == b.up && r.normalD == b.up
    ensures r.uvA == Zero2
  {
    var p := RoadCorners(rect, b);
    var roadU := m.Divide(rect.width, repeat);
    var roadV := m.Divide(rect.length, repeat);
    FlatQuad(p.se, p.ne, p.nw, p.sw, b.up, b.forward, Vec2(0.0, 0.0), Vec2(0.0, roadV), Vec2(roadU, roadV), Vec2(roadU, 0.0))
  }

  /** The extension quad of the open side from corner a to corner b, pushed out by the sidewalk width along `direction`. */
  function Extension(cornerA: Vec3, cornerB: Vec3, direction: Vec3, curb: Curb, repeat: real, b: Basis, m: Maths): Face {
    var extA := Add(cornerA, Scale(direction, curb.width));
    var extB := Add(cornerB, Scale(direction, curb.width));
    var extU := m.Divide(m.length(Sub(cornerB, cornerA)), repeat);
    var extV := m.Divide(curb.width, repeat);
    FlatQuad(cornerB, extB, extA, cornerA, b.up, direction, Vec2(0.0, 0.0), Vec2(extV, 0.0), Vec2(extV, extU), Vec2(0.0, extU))
  }

  /** The road's faces group by group: the centre quad, then the north, south, east and west extensions of the open sides. */
  function RoadGroups(rect: Rectangle, curb: Curb, repeat: real, b: Basis, m: Maths): (r: seq<seq<Face>>)
    ensures |r| == 5
  {
    var p := RoadCorners(rect, b);
    [[CenterQuad(rect, repeat, b, m)],
     When(HasFlag(rect.exits, North), [Extension(p.nw, p.ne, b.forward, curb, repeat, b, m)]),
     When(HasFlag(rect.exits, South), [Extension(p.se, p.sw, Neg(b.forward), curb, repeat, b, m)]),
     When(HasFlag(rect.exits, East), [Extension(p.ne, p.se, b.right, curb, repeat, b, m)]),
     When(HasFlag(rect.exits, West), [Extension(p.sw, p.nw, Neg(b.right), curb, repeat, b, m)])]
  }

  /** The quads of the road, in the order they are written. */
  function RoadFaces(rect: Rectangle, curb: Curb, repeat: real, b: Basis, m: Maths): seq<Face> {
    Flatten(RoadGroups(rect, curb, repeat, b, m))
  }

  /** The road is one quad plus one per exit, so it takes (1 + exits)·4 vertices and (1 + exits)·6 indices. */
  lemma RoadCapacity(rect: Rectangle, curb: Curb, repeat: real, b: Basis, m: Maths)
    ensures |RoadFaces(rect, curb, repeat, b, m)| == 1 + ExitCount(rect.exits)
    ensures VertexCount(RoadFaces(rect, curb, repeat, b, m)) == (1 + ExitCount(rect.exits)) * 4
    ensures IndexCount(RoadFaces(rect, curb, repeat, b, m)) == (1 + ExitCount(rect.exits)) * 6
  {
    var groups := RoadGroups(rect, curb, repeat, b, m);
    FlattenSizes5(groups);
    FlattenQuads(groups);
    QuadCounts(Flatten(groups));
  }

  /** The faces of five groups number the sum of the groups' sizes. */
  lemma FlattenSizes5(groups: seq<seq<Face>>)
    requires |groups| == 5
    ensures |Flatten(groups)| == |groups[0]| + |groups[1]| + |groups[2]| + |groups[3]| + |groups[4]|
  {
    FlattenGroup(groups, 0);
    FlattenGroup(groups, 1);
    FlattenGroup(groups, 2);
    FlattenGroup(groups, 3);
    FlattenGroup(groups, 4);
    assert groups[..0] == [];
    assert groups[..5] == groups;
  }

  /**
    `AddRoadExtension`: the extension quad of one open side, which is group j
    of the road's faces and starts at slot w.
  */
  method AddRoadExtension(builder: MeshBuilder, cornerA: Vec3, cornerB: Vec3, direction: Vec3, curb: Curb, repeat: real,
                          b: Basis, m: Maths, ghost table: map<Key, SubMesh>, ghost order: seq<Key>,
                          ghost groups: seq<seq<Face>>, ghost stages: seq<SubMesh>, ghost j: nat, ghost w: nat,
                          ghost material: Material)
    returns (ghost w': nat)
    requires j < |groups| && groups[j] == [Extension(cornerA, cornerB, direction, curb, repeat, b, m)]
    requires w == |Flatten(groups[..j])| && Stages(stages, Flatten(groups), material, true) && w < |stages|
    requires IntersectionRoadKey in table && builder.order == order && builder.subMeshes == table[IntersectionRoadKey := stages[w]]
    modifies builder
    ensures w' == |Flatten(groups[..j + 1])| && w' < |stages| && builder.subMeshes == table[IntersectionRoadKey := stages[w']]
    ensures builder.order == order && builder.isDirty == old(builder.isDirty)
    ensures builder.castShadows == old(builder.castShadows)
    ensures builder.meshes == old(builder.meshes) && builder.collider == old(builder.collider)
  {
    var quad := Extension(cornerA, cornerB, direction, curb, repeat, b, m);
    FlattenGroup(groups, j);
    assert Flatten(groups)[w] == Flatten(groups)[w..w + 1][0];
    EmitStaged(builder, IntersectionRoadKey, table, order, Flatten(groups), stages, w, quad, material, true);
    w' := w + 1;
  }

  /** One side of the road build: the side's extension when it is open, nothing when it is closed. */
  method ExtendIfOpen(builder: MeshBuilder, exits: bv32, side: bv32, cornerA: Vec3, cornerB: Vec3, direction: Vec3,
                      curb: Curb, repeat: real, b: Basis, m: Maths, ghost table: map<Key, SubMesh>, ghost order: seq<Key>,
                      ghost groups: seq<seq<Face>>, ghost stages: seq<SubMesh>, ghost j: nat, ghost w: nat,
                      ghost material: Material)
    returns (ghost w': nat)
    requires j < |groups| && groups[j] == When(HasFlag(exits, side), [Extension(cornerA, cornerB, direction, curb, repeat, b, m)])
    requires w == |Flatten(groups[..j])| && Stages(stages, Flatten(groups), material, true) && w < |stages|
    requires IntersectionRoadKey in table && builder.order == order && builder.subMeshes == table[IntersectionRoadKey := stages[w]]
    modifies builder
    ensures w' == |Flatten(groups[..j + 1])| && w' < |stages| && builder.subMeshes == table[IntersectionRoadKey := stages[w']]
    ensures builder.order == order && builder.isDirty == old(builder.isDirty)
    ensures builder.castShadows == old(builder.castShadows)
    ensures builder.meshes == old(builder.meshes) && builder.collider == old(builder.collider)
  {
    FlattenGroup(groups, j);
    w' := w;
    if HasFlag(exits, side) {
      w' := AddRoadExtension(builder, cornerA, cornerB, direction, curb, repeat, b, m, table, order, groups, stages, j, w, material);
    }
  }

  /**
    `BuildRectangleRoad`: counts the exits, declares the road entry with room
    for the centre quad and one extension per exit, and writes them. The
    entry ends filled with exactly the road's quads.
  */
  method BuildRectangleRoad(builder: MeshBuilder, rect: Rectangle, curb: Curb, roadMaterial: Option<Material>,
                            repeat: real, b: Basis, m: Maths)
    requires builder.Valid()
    modifies builder
    ensures builder.Valid()
    ensures builder.subMeshes == old(builder.subMeshes)[IntersectionRoadKey :=
              Filled(RoadFaces(rect, curb, repeat, b, m), roadMaterial.GetOr(DefaultRoadMaterial), true)]
    ensures builder.order == if IntersectionRoadKey in old(builder.subMeshes) then old(builder.order)
                             else old(builder.order) + [IntersectionRoadKey]
    ensures builder.isDirty == old(builder.isDirty) && builder.castShadows == old(builder.castShadows)
    ensures builder.meshes == old(builder.meshes) && builder.collider == old(builder.collider)
  {
    var exitCount := CountExits(rect.exits);
    var material := roadMaterial.GetOr(DefaultRoadMaterial);
    ghost var faces := RoadFaces(rect, curb, repeat, b, m);
    RoadCapacity(rect, curb, repeat, b, m);
    assert (1 + exitCount) * 4 == VertexCount(faces) && (1 + exitCount) * 6 == IndexCount(faces);
    builder.InitSubmesh(IntersectionRoadKey, (1 + exitCount) * 4, (1 + exitCount) * 6, material, true);
    ghost var table := builder.subMeshes;
    ghost var stages := StagesOf(faces, material, true);
    StagesEnds(stages, faces, material, true);
    Declared(table, IntersectionRoadKey, faces, material, true);
    assert stages[0] == Partial(faces, 0, material, true);
    WriteRoadQuads(builder, rect, curb, repeat, b, m, table, builder.order, stages, material);
    FinishEntry(table, builder.order, IntersectionRoadKey, faces, material, true);
    UpdateTwice(old(builder.subMeshes), IntersectionRoadKey, table[IntersectionRoadKey], stages[|faces|]);
  }

  /** The writing part of `BuildRectangleRoad`: the centre quad, then the north, south, east and west extensions of the open sides. */
  method WriteRoadQuads(builder: MeshBuilder, rect: Rectangle, curb: Curb, repeat: real, b: Basis, m: Maths,
                        ghost table: map<Key, SubMesh>, ghost order: seq<Key>, ghost stages: seq<SubMesh>, ghost material: Material)
    requires Stages(stages, RoadFaces(rect, curb, repeat, b, m), material, true)
    requires IntersectionRoadKey in table && builder.order == order && builder.subMeshes == table[IntersectionRoadKey := stages[0]]
    modifies builder
    ensures builder.subMeshes == table[IntersectionRoadKey := stages[|RoadFaces(rect, curb, repeat, b, m)|]]
    ensures builder.order == order && builder.isDirty == old(builder.isDirty)
    ensures builder.castShadows == old(builder.castShadows)
    ensures builder.meshes == old(builder.meshes) && builder.collider == old(builder.collider)
  {
    ghost var groups := RoadGroups(rect, curb, repeat, b, m);
    var p := RoadCorners(rect, b);
    var center := CenterQuad(rect, repeat, b, m);
    FlattenGroup(groups, 0);
    assert groups[..0] == [] && Flatten(groups)[0] == Flatten(groups)[0..1][0];
    EmitStaged(builder, IntersectionRoadKey, table, order, Flatten(groups), stages, 0, center, material, true);
    ghost var w := 1;
    w := ExtendIfOpen(builder, rect.exits, North, p.nw, p.ne, b.forward, curb, repeat, b, m, table, order, groups, stages, 1, w, material);
    w := ExtendIfOpen(builder, rect.exits, South, p.se, p.sw, Neg(b.forward), curb, repeat, b, m, table, order, groups, stages, 2, w, material);
    w := ExtendIfOpen(builder, rect.exits, East, p.ne, p.se, b.right, curb, repeat, b, m, table, order, groups, stages, 3, w, material);
    w := ExtendIfOpen(builder, rect.exits, West, p.sw, p.nw, Neg(b.right), curb, repeat, b, m, table, order, groups, stages, 4, w, material);
    assert groups[..5] == groups;
  }

  // ---------------------------------------------------------------- sidewalk

  /** The three quads of a strip along a closed side from `start` to `end`: the top, the inner face and the outer face. */
  function StripFaces(start: Vec3, end: Vec3, outward: Vec3, curb: Curb, b: Basis, m: Maths): (r: seq<Face>)
    ensures |r| == 3 && r[0].Quad? && r[1].Quad? && r[2].Quad?
  {
    var forward := m.normal(Sub(end, start));
    var o0 := Add(start, Scale(outward, curb.width));
    var o1 := Add(end, Scale(outward, curb.width));
    var t0 := Raise(start, b.up, curb.height);
    var t1 := Raise(end, b.up, curb.height);
    var ot0 := Raise(o0, b.up, curb.height);
    var ot1 := Raise(o1, b.up, curb.height);
    var uWidth := m.Divide(curb.width, curb.textureRepeat);
    var vLen := m.Divide(m.length(Sub(end, start)), curb.textureRepeat);
    var hHeight := m.Divide(curb.height, curb.textureRepeat);
    [FlatQuad(ot0, ot1, t1, t0, b.up, forward, Vec2(uWidth, 0.0), Vec2(uWidth, vLen), Vec2(0.0, vLen), Vec2(0.0, 0.0)),
     FlatQuad(t0, t1, end, start, Neg(outward), forward, Vec2(0.0, 0.0), Vec2(0.0, vLen), Vec2(hHeight, vLen), Vec2(hHeight, 0.0)),
     FlatQuad(ot1, ot0, o0, o1, outward, Neg(forward), Vec2(0.0, 0.0), Vec2(0.0, vLen), Vec2(hHeight, vLen), Vec2(hHeight, 0.0))]
  }

  /** The raised and ground points of a corner cap: the corner, its neighbours along a and b, and the outer point. */
  datatype CapPoints = CapPoints(center: Vec3, a: Vec3, b: Vec3, outer: Vec3,
                                 tCenter: Vec3, tA: Vec3, tB: Vec3, tOuter: Vec3, uW: real, hH: real)

  function CornerPoints(corner: Vec3, dirA: Vec3, dirB: Vec3, curb: Curb, b: Basis, m: Maths): CapPoints {
    var pA := Add(corner, Scale(dirA, curb.width));
    var pB := Add(corner, Scale(dirB, curb.width));
    var pOuter := Add(Add(corner, Scale(dirA, curb.width)), Scale(dirB, curb.width));
    CapPoints(corner, pA, pB, pOuter,
              Raise(corner, b.up, curb.height), Raise(pA, b.up, curb.height), Raise(pB, b.up, curb.height), Raise(pOuter, b.up, curb.height),
              m.Divide(curb.width, curb.textureRepeat), m.Divide(curb.height, curb.textureRepeat))
  }

  /** Whether the cap's winding is flipped: a then b turns counter-clockwise about up, or not at all. */
  predicate Flip(dirA: Vec3, dirB: Vec3, b: Basis) {
    Dot(Cross(dirA, dirB), b.up) >= 0.0
  }

  /** The three quads every corner cap has: the top and the two outer faces, wound by `Flip`. */
  function CapBody(corner: Vec3, dirA: Vec3, dirB: Vec3, curb: Curb, b: Basis, m: Maths): (r: seq<Face>)
    ensures |r| == 3 && r[0].Quad? && r[1].Quad? && r[2].Quad?
  {
    var q := CornerPoints(corner, dirA, dirB, curb, b, m);
    var uW := q.uW;
    var hH := q.hH;
    if Flip(dirA, dirB, b) then
      [FlatQuad(q.tOuter, q.tB, q.tCenter, q.tA, b.up, dirA, Vec2(uW, uW), Vec2(0.0, uW), Vec2(0.0, 0.0), Vec2(uW, 0.0)),
       FlatQuad(q.tA, q.a, q.outer, q.tOuter, dirA, dirB, Vec2(0.0, uW), Vec2(hH, uW), Vec2(hH, 0.0), Vec2(0.0, 0.0)),
       FlatQuad(q.tOuter, q.outer, q.b, q.tB, dirB, Neg(dirA), Vec2(0.0, uW), Vec2(hH, uW), Vec2(hH, 0.0), Vec2(0.0, 0.0))]
    else
      [FlatQuad(q.tOuter, q.tA, q.tCenter, q.tB, b.up, dirA, Vec2(uW, uW), Vec2(0.0, uW), Vec2(0.0, 0.0), Vec2(uW, 0.0)),
       FlatQuad(q.tOuter, q.outer, q.a, q.tA, dirA, Neg(dirB), Vec2(0.0, uW), Vec2(hH, uW), Vec2(hH, 0.0), Vec2(0.0, 0.0)),
       FlatQuad(q.tB, q.b, q.outer, q.tOuter, dirB, dirA, Vec2(0.0, uW), Vec2(hH, uW), Vec2(hH, 0.0), Vec2(0.0, 0.0))]
  }

  /** The seal quad closing the cap's a side, when that side is an exit. */
  function SealA(corner: Vec3, dirA: Vec3, dirB: Vec3, curb: Curb, b: Basis, m: Maths): Face {
    var q := CornerPoints(corner, dirA, dirB, curb, b, m);
    if Flip(dirA, dirB, b) then
      FlatQuad(q.tA, q.tCenter, q.center, q.a, Neg(dirB), Neg(dirA), Vec2(0.0, 0.0), Vec2(0.0, q.uW), Vec2(q.hH, q.uW), Vec2(q.hH, 0.0))
    else
      FlatQuad(q.tCenter, q.tA, q.a, q.center, Neg(dirB), dirA, Vec2(0.0, 0.0), Vec2(0.0, q.uW), Vec2(q.hH, q.uW), Vec2(q.hH, 0.0))
  }

  /** The seal quad closing the cap's b side, when that side is an exit. */
  function SealB(corner: Vec3, dirA: Vec3, dirB: Vec3, curb: Curb, b: Basis, m: Maths): Face {
    var q := CornerPoints(corner, dirA, dirB, curb, b, m);
    if Flip(dirA, dirB, b) then
      FlatQuad(q.tCenter, q.tB, q.b, q.center, Neg(dirA), dirB, Vec2(0.0, 0.0), Vec2(0.0, q.uW), Vec2(q.hH, q.uW), Vec2(q.hH, 0.0))
    else
      FlatQuad(q.tB, q.tCenter, q.center, q.b, Neg(dirA), Neg(dirB), Vec2(0.0, 0.0), Vec2(0.0, q.uW), Vec2(q.hH, q.uW), Vec2(q.hH, 0.0))
  }

  /** A corner cap's quads: the body, then the seal of each side that is an exit. */
  function CapFaces(corner: Vec3, dirA: Vec3, dirB: Vec3, aIsExit: bool, bIsExit: bool, curb: Curb, b: Basis, m: Maths): seq<Face> {
    CapBody(corner, dirA, dirB, curb, b, m)
      + When(aIsExit, [SealA(corner, dirA, dirB, curb, b, m)])
      + When(bIsExit, [SealB(corner, dirA, dirB, curb, b, m)])
  }

  /** A corner cap is three quads plus one seal per adjacent exit. */
  lemma CapSize(corner: Vec3, dirA: Vec3, dirB: Vec3, aIsExit: bool, bIsExit: bool, curb: Curb, b: Basis, m: Maths)
    ensures var r := CapFaces(corner, dirA, dirB, aIsExit, bIsExit, curb, b, m);
            && |r| == 3 + CornerSeals(aIsExit, bIsExit)
            && forall j :: 0 <= j < |r| ==> r[j].Quad?
  {
  }

  /** The strips of the north, south, east and west sides, each present when its side is closed. */
  function StripGroups(rect: Rectangle, curb: Curb, b: Basis, m: Maths): (r: seq<seq<Face>>)
    ensures |r| == 4
  {
    var p := RoadCorners(rect, b);
    [When(!HasFlag(rect.exits, North), StripFaces(p.ne, p.nw, b.forward, curb, b, m)),
     When(!HasFlag(rect.exits, South), StripFaces(p.sw, p.se, Neg(b.forward), curb, b, m)),
     When(!HasFlag(rect.exits, East), StripFaces(p.se, p.ne, b.right, curb, b, m)),
     When(!HasFlag(rect.exits, West), StripFaces(p.nw, p.sw, Neg(b.right), curb, b, m))]
  }

  /** The south-west, south-east, north-east and north-west corner caps, each sealed on the sides that are exits. */
  function CapGroups(p: Corners, n: bool, s: bool, e: bool, w: bool, curb: Curb, b: Basis, m: Maths): (r: seq<seq<Face>>)
    ensures |r| == 4
  {
    [CapFaces(p.sw, Neg(b.right), Neg(b.forward), w, s, curb, b, m),
     CapFaces(p.se, b.right, Neg(b.forward), e, s, curb, b, m),
     CapFaces(p.ne, b.right, b.forward, e, n, curb, b, m),
     CapFaces(p.nw, Neg(b.right), b.forward, w, n, curb, b, m)]
  }

  /** The sidewalk's faces group by group: the strips, then the corner caps. */
  function SidewalkGroups(rect: Rectangle, curb: Curb, b: Basis, m: Maths): (r: seq<seq<Face>>)
    ensures |r| == 8
  {
    var e := rect.exits;
    StripGroups(rect, curb, b, m)
      + CapGroups(RoadCorners(rect, b), HasFlag(e, North), HasFlag(e, South), HasFlag(e, East), HasFlag(e, West), curb, b, m)
  }

  /** The quads of the sidewalk, in the order they are written. */
  function SidewalkFaces(rect: Rectangle, curb: Curb, b: Basis, m: Maths): seq<Face> {
    Flatten(SidewalkGroups(rect, curb, b, m))
  }

  /** The faces of eight groups number the sum of the groups' sizes. */
  lemma FlattenSizes8(groups: seq<seq<Face>>)
    requires |groups| == 8
    ensures |Flatten(groups)| == |groups[0]| + |groups[1]| + |groups[2]| + |groups[3]|
                                 + |groups[4]| + |groups[5]| + |groups[6]| + |groups[7]|
  {
    FlattenGroup(groups, 0);
    FlattenGroup(groups, 1);
    FlattenGroup(groups, 2);
    FlattenGroup(groups, 3);
    FlattenGroup(groups, 4);
    FlattenGroup(groups, 5);
    FlattenGroup(groups, 6);
    FlattenGroup(groups, 7);
    assert groups[..0] == [];
    assert groups[..8] == groups;
  }

  predicate Quads(fs: seq<Face>) {
    forall j :: 0 <= j < |fs| ==> fs[j].Quad?
  }

  /** The sidewalk groups hold nothing but quads. */
  lemma SidewalkGroupQuads(rect: Rectangle, curb: Curb, b: Basis, m: Maths)
    ensures var groups := SidewalkGroups(rect, curb, b, m);
            forall g, j :: 0 <= g < |groups| && 0 <= j < |groups[g]| ==> groups[g][j].Quad?
  {
    var groups: seq<seq<Face>> := SidewalkGroups(rect, curb, b, m);
    var e := rect.exits;
    var caps := CapGroups(RoadCorners(rect, b), HasFlag(e, North), HasFlag(e, South), HasFlag(e, East), HasFlag(e, West), curb, b, m);
    CapGroupQuads(RoadCorners(rect, b), HasFlag(e, North), HasFlag(e, South), HasFlag(e, East), HasFlag(e, West), curb, b, m);
    var strips := StripGroups(rect, curb, b, m);
    assert Quads(strips[0]) && Quads(strips[1]) && Quads(strips[2]) && Quads(strips[3]);
    forall g: int, j: int | 0 <= g < |groups| && 0 <= j < |groups[g]|
      ensures groups[g][j].Quad?
    {
      if g < 4 {
        assert groups[g] == strips[g];
        assert Quads(strips[g]);
      } else {
        assert groups[g] == caps[g - 4];
        assert Quads(caps[g - 4]);
      }
    }
  }

  lemma CapGroupQuads(p: Corners, n: bool, s: bool, e: bool, w: bool, curb: Curb, b: Basis, m: Maths)
    ensures var caps := CapGroups(p, n, s, e, w, curb, b, m);
            Quads(caps[0]) && Quads(caps[1]) && Quads(caps[2]) && Quads(caps[3])
  {
    CapSize(p.sw, Neg(b.right), Neg(b.forward), w, s, curb, b, m);
    CapSize(p.se, b.right, Neg(b.forward), e, s, curb, b, m);
    CapSize(p.ne, b.right, b.forward, e, n, curb, b, m);
    CapSize(p.nw, Neg(b.right), b.forward, w, n, curb, b, m);
  }

  /** Three quads per closed side, and three plus one per seal per corner. */
  lemma SidewalkGroupSizes(rect: Rectangle, curb: Curb, b: Basis, m: Maths)
    ensures var groups := SidewalkGroups(rect, curb, b, m);
            && |groups[0]| + |groups[1]| + |groups[2]| + |groups[3]| == 3 * SideCount(rect.exits)
            && |groups[4]| + |groups[5]| + |groups[6]| + |groups[7]| == 12 + EndCapCount(rect.exits)
  {
    var p := RoadCorners(rect, b);
    var n, s, e, w := HasFlag(rect.exits, North), HasFlag(rect.exits, South), HasFlag(rect.exits, East), HasFlag(rect.exits, West);
    CapSize(p.sw, Neg(b.right), Neg(b.forward), w, s, curb, b, m);
    CapSize(p.se, b.right, Neg(b.forward), e, s, curb, b, m);
    CapSize(p.ne, b.right, b.forward, e, n, curb, b, m);
    CapSize(p.nw, Neg(b.right), b.forward, w, n, curb, b, m);
    CornerSealsPerExit(rect.exits);
  }

  /**
    For every exit set, the sidewalk's quads are three per closed side, three
    per corner and one per seal, and take exactly the declared
    sideCount·12 + 48 + endCapCount·4 vertices and sideCount·18 + 72 +
    endCapCount·6 indices.
  */
  lemma SidewalkCapacity(rect: Rectangle, curb: Curb, b: Basis, m: Maths)
    ensures var faces := SidewalkFaces(rect, curb, b, m);
            var sides, caps := SideCount(rect.exits), EndCapCount(rect.exits);
            && |faces| == 3 * sides + 12 + caps
            && VertexCount(faces) == sides * 12 + 4 * 12 + caps * 4
            && IndexCount(faces) == sides * 18 + 4 * 18 + caps * 6
  {
    var groups := SidewalkGroups(rect, curb, b, m);
    SidewalkGroupSizes(rect, curb, b, m);
    SidewalkGroupQuads(rect, curb, b, m);
    FlattenSizes8(groups);
    FlattenQuads(groups);
    QuadCounts(Flatten(groups));
  }

  /** `AddSidewalkStrip`: the strip's top, inner and outer quads, written in that order. */
  method AddSidewalkStrip(builder: MeshBuilder, start: Vec3, end: Vec3, outward: Vec3, curb: Curb, b: Basis, m: Maths,
                          ghost table: map<Key, SubMesh>, ghost order: seq<Key>,
                          ghost groups: seq<seq<Face>>, ghost stages: seq<SubMesh>, ghost j: nat, ghost w: nat,
                          ghost material: Material)
    returns (ghost w': nat)
    requires j < |groups| && groups[j] == StripFaces(start, end, outward, curb, b, m)
    requires w == |Flatten(groups[..j])| && Stages(stages, Flatten(groups), material, true) && w < |stages|
    requires IntersectionSidewalkKey in table && builder.order == order && builder.subMeshes == table[IntersectionSidewalkKey := stages[w]]
    modifies builder
    ensures w' == |Flatten(groups[..j + 1])| && w' < |stages| && builder.subMeshes == table[IntersectionSidewalkKey := stages[w']]
    ensures builder.order == order && builder.isDirty == old(builder.isDirty)
    ensures builder.castShadows == old(builder.castShadows)
    ensures builder.meshes == old(builder.meshes) && builder.collider == old(builder.collider)
  {
    var quads := StripFaces(start, end, outward, curb, b, m);
    EmitGrouped(builder, IntersectionSidewalkKey, table, order, groups, stages, j, w, 0, quads[0], material, true);
    EmitGrouped(builder, IntersectionSidewalkKey, table, order, groups, stages, j, w, 1, quads[1], material, true);
    EmitGrouped(builder, IntersectionSidewalkKey, table, order, groups, stages, j, w, 2, quads[2], material, true);
    FlattenGroup(groups, j);
    w' := w + 3;
  }

  /** One side of the sidewalk build: the side's strip when it is closed, nothing when it is an exit. */
  method StripIfClosed(builder: MeshBuilder, exits: bv32, side: bv32, start: Vec3, end: Vec3, outward: Vec3,
                       curb: Curb, b: Basis, m: Maths, ghost table: map<Key, SubMesh>, ghost order: seq<Key>,
                          ghost groups: seq<seq<Face>>, ghost stages: seq<SubMesh>, ghost j: nat, ghost w: nat,
                          ghost material: Material)
    returns (ghost w': nat)
    requires j < |groups| && groups[j] == When(!HasFlag(exits, side), StripFaces(start, end, outward, curb, b, m))
    requires w == |Flatten(groups[..j])| && Stages(stages, Flatten(groups), material, true) && w < |stages|
    requires IntersectionSidewalkKey in table && builder.order == order && builder.subMeshes == table[IntersectionSidewalkKey := stages[w]]
    modifies builder
    ensures w' == |Flatten(groups[..j + 1])| && w' < |stages| && builder.subMeshes == table[IntersectionSidewalkKey := stages[w']]
    ensures builder.order == order && builder.isDirty == old(builder.isDirty)
    ensures builder.castShadows == old(builder.castShadows)
    ensures builder.meshes == old(builder.meshes) && builder.collider == old(builder.collider)
  {
    FlattenGroup(groups, j);
    w' := w;
    if !HasFlag(exits, side) {
      w' := AddSidewalkStrip(builder, start, end, outward, curb, b, m, table, order, groups, stages, j, w, material);
    }
  }

  /**
    `AddCornerCap`: the cap's top and two outer quads, then the seal of side
    a when a is an exit and the seal of side b when b is an exit.
  */
  method AddCornerCap(builder: MeshBuilder, corner: Vec3, dirA: Vec3, dirB: Vec3, aIsExit: bool, bIsExit: bool,
                      curb: Curb, b: Basis, m: Maths, ghost table: map<Key, SubMesh>, ghost order: seq<Key>,
                          ghost groups: seq<seq<Face>>, ghost stages: seq<SubMesh>, ghost j: nat, ghost w: nat,
                          ghost material: Material)
    returns (ghost w': nat)
    requires j < |groups| && groups[j] == CapFaces(corner, dirA, dirB, aIsExit, bIsExit, curb, b, m)
    requires w == |Flatten(groups[..j])| && Stages(stages, Flatten(groups), material, true) && w < |stages|
    requires IntersectionSidewalkKey in table && builder.order == order && builder.subMeshes == table[IntersectionSidewalkKey := stages[w]]
    modifies builder
    ensures w' == |Flatten(groups[..j + 1])| && w' < |stages| && builder.subMeshes == table[IntersectionSidewalkKey := stages[w']]
    ensures builder.order == order && builder.isDirty == old(builder.isDirty)
    ensures builder.castShadows == old(builder.castShadows)
    ensures builder.meshes == old(builder.meshes) && builder.collider == old(builder.collider)
  {
    var body := CapBody(corner, dirA, dirB, curb, b, m);
    ghost var cap := groups[j];
    assert cap[..3] == body;
    EmitGrouped(builder, IntersectionSidewalkKey, table, order, groups, stages, j, w, 0, body[0], material, true);
    EmitGrouped(builder, IntersectionSidewalkKey, table, order, groups, stages, j, w, 1, body[1], material, true);
    EmitGrouped(builder, IntersectionSidewalkKey, table, order, groups, stages, j, w, 2, body[2], material, true);
    ghost var t := 3;
    if aIsExit {
      var seal := SealA(corner, dirA, dirB, curb, b, m);
      EmitGrouped(builder, IntersectionSidewalkKey, table, order, groups, stages, j, w, t, seal, material, true);
      t := t + 1;
    }
    if bIsExit {
      var seal := SealB(corner, dirA, dirB, curb, b, m);
      EmitGrouped(builder, IntersectionSidewalkKey, table, order, groups, stages, j, w, t, seal, material, true);
      t := t + 1;
    }
    FlattenGroup(groups, j);
    w' := w + t;
  }

  /**
    `BuildRectangleSidewalk`: counts the closed sides and the seals, declares
    the sidewalk entry with the room of three quads per strip, twelve corner
    quads and the seals, and writes them. The entry ends filled with exactly
    the sidewalk's quads, whatever the exits.
  */
  method BuildRectangleSidewalk(builder: MeshBuilder, rect: Rectangle, curb: Curb, sidewalkMaterial: Option<Material>,
                                b: Basis, m: Maths)
    requires builder.Valid()
    modifies builder
    ensures builder.Valid()
    ensures builder.subMeshes == old(builder.subMeshes)[IntersectionSidewalkKey :=
              Filled(SidewalkFaces(rect, curb, b, m), sidewalkMaterial.GetOr(DefaultSidewalkMaterial), true)]
    ensures builder.order == if IntersectionSidewalkKey in old(builder.subMeshes) then old(builder.order)
                             else old(builder.order) + [IntersectionSidewalkKey]
    ensures builder.isDirty == old(builder.isDirty) && builder.castShadows == old(builder.castShadows)
    ensures builder.meshes == old(builder.meshes) && builder.collider == old(builder.collider)
  {
    var sideCount, endCapCount := CountSidewalkParts(rect.exits);
    var totalVertices := sideCount * 12 + 4 * 12 + endCapCount * 4;
    var totalIndices := sideCount * 18 + 4 * 18 + endCapCount * 6;
    var material := sidewalkMaterial.GetOr(DefaultSidewalkMaterial);
    ghost var faces := SidewalkFaces(rect, curb, b, m);
    SidewalkCapacity(rect, curb, b, m);
    assert totalVertices == VertexCount(faces) && totalIndices == IndexCount(faces);
    builder.InitSubmesh(IntersectionSidewalkKey, totalVertices, totalIndices, material, true);
    ghost var table := builder.subMeshes;
    ghost var stages := StagesOf(faces, material, true);
    StagesEnds(stages, faces, material, true);
    Declared(table, IntersectionSidewalkKey, faces, material, true);
    assert stages[0] == Partial(faces, 0, material, true);
    WriteSidewalkQuads(builder, rect, curb, b, m, table, builder.order, stages, material);
    FinishEntry(table, builder.order, IntersectionSidewalkKey, faces, material, true);
    UpdateTwice(old(builder.subMeshes), IntersectionSidewalkKey, table[IntersectionSidewalkKey], stages[|faces|]);
  }

  /** The writing part of `BuildRectangleSidewalk`: the strips of the closed sides, then the four corner caps. */
  method WriteSidewalkQuads(builder: MeshBuilder, rect: Rectangle, curb: Curb, b: Basis, m: Maths,
                            ghost table: map<Key, SubMesh>, ghost order: seq<Key>, ghost stages: seq<SubMesh>, ghost material: Material)
    requires Stages(stages, SidewalkFaces(rect, curb, b, m), material, true)
    requires IntersectionSidewalkKey in table && builder.order == order && builder.subMeshes == table[IntersectionSidewalkKey := stages[0]]
    modifies builder
    ensures builder.subMeshes == table[IntersectionSidewalkKey := stages[|SidewalkFaces(rect, curb, b, m)|]]
    ensures builder.order == order && builder.isDirty == old(builder.isDirty)
    ensures builder.castShadows == old(builder.castShadows)
    ensures builder.meshes == old(builder.meshes) && builder.collider == old(builder.collider)
  {
    ghost var groups := SidewalkGroups(rect, curb, b, m);
    var p := RoadCorners(rect, b);
    var n := HasFlag(rect.exits, North);
    var s := HasFlag(rect.exits, South);
    var e := HasFlag(rect.exits, East);
    var west := HasFlag(rect.exits, West);
    assert groups[..0] == [] && groups[..4] == StripGroups(rect, curb, b, m) && groups[4..] == CapGroups(p, n, s, e, west, curb, b, m);
    ghost var w := WriteStrips(builder, rect, curb, b, m, table, order, groups, stages, material);
    w := WriteCornerCaps(builder, p, n, s, e, west, curb, b, m, table, order, groups, stages, w, material);
    assert groups[..8] == groups;
  }

  /** The north, south, east and west strips, each written when its side is closed. */
  method WriteStrips(builder: MeshBuilder, rect: Rectangle, curb: Curb, b: Basis, m: Maths,
                     ghost table: map<Key, SubMesh>, ghost order: seq<Key>, ghost groups: seq<seq<Face>>,
                     ghost stages: seq<SubMesh>, ghost material: Material)
    returns (ghost w': nat)
    requires |groups| == 8 && groups[..4] == StripGroups(rect, curb, b, m) && Stages(stages, Flatten(groups), material, true)
    requires IntersectionSidewalkKey in table && builder.order == order && builder.subMeshes == table[IntersectionSidewalkKey := stages[|Flatten(groups[..0])|]]
    modifies builder
    ensures w' == |Flatten(groups[..4])| && w' < |stages| && builder.subMeshes == table[IntersectionSidewalkKey := stages[w']]
    ensures builder.order == order && builder.isDirty == old(builder.isDirty)
    ensures builder.castShadows == old(builder.castShadows)
    ensures builder.meshes == old(builder.meshes) && builder.collider == old(builder.collider)
  {
    var p := RoadCorners(rect, b);
    var exits := rect.exits;
    ghost var strips := StripGroups(rect, curb, b, m);
    assert groups[0] == strips[0] && groups[1] == strips[1] && groups[2] == strips[2] && groups[3] == strips[3];
    w' := |Flatten(groups[..0])|;
    FlattenGroup(groups, 0);
    w' := StripIfClosed(builder, exits, North, p.ne, p.nw, b.forward, curb, b, m, table, order, groups, stages, 0, w', material);
    w' := StripIfClosed(builder, exits, South, p.sw, p.se, Neg(b.forward), curb, b, m, table, order, groups, stages, 1, w', material);
    w' := StripIfClosed(builder, exits, East, p.se, p.ne, b.right, curb, b, m, table, order, groups, stages, 2, w', material);
    w' := StripIfClosed(builder, exits, West, p.nw, p.sw, Neg(b.right), curb, b, m, table, order, groups, stages, 3, w', material);
  }

  /** The south-west, south-east, north-east and north-west corner caps, each told which of its two sides are exits. */
  method WriteCornerCaps(builder: MeshBuilder, p: Corners, n: bool, s: bool, e: bool, w: bool, curb: Curb, b: Basis, m: Maths,
                         ghost table: map<Key, SubMesh>, ghost order: seq<Key>, ghost groups: seq<seq<Face>>,
                         ghost stages: seq<SubMesh>, ghost start: nat, ghost material: Material)
    returns (ghost w': nat)
    requires |groups| == 8 && groups[4..] == CapGroups(p, n, s, e, w, curb, b, m) && Stages(stages, Flatten(groups), material, true)
    requires start == |Flatten(groups[..4])| && start < |stages|
    requires IntersectionSidewalkKey in table && builder.order == order && builder.subMeshes == table[IntersectionSidewalkKey := stages[start]]
    modifies builder
    ensures w' == |Flatten(groups[..8])| && w' < |stages| && builder.subMeshes == table[IntersectionSidewalkKey := stages[w']]
    ensures builder.order == order && builder.isDirty == old(builder.isDirty)
    ensures builder.castShadows == old(builder.castShadows)
    ensures builder.meshes == old(builder.meshes) && builder.collider == old(builder.collider)
  {
    ghost var caps := CapGroups(p, n, s, e, w, curb, b, m);
    assert groups[4] == caps[0] && groups[5] == caps[1] && groups[6] == caps[2] && groups[7] == caps[3];
    w' := AddCornerCap(builder, p.sw, Neg(b.right), Neg(b.forward), w, s, curb, b, m, table, order, groups, stages, 4, start, material);
    w' := AddCornerCap(builder, p.se, b.right, Neg(b.forward), e, s, curb, b, m, table, order, groups, stages, 5, w', material);
    w' := AddCornerCap(builder, p.ne, b.right, b.forward, e, n, curb, b, m, table, order, groups, stages, 6, w', material);
    w' := AddCornerCap(builder, p.nw, Neg(b.right), b.forward, w, n, curb, b, m, table, order, groups, stages, 7, w', material);
  }

  // ------------------------------------------------------------ exit transforms

  /**
    Where a road joins an exit: a position, and the yaw in degrees turned
    from the component's rotation (0 keeps the rotation as it is).
  */
  datatype Placement = Placement(position: Vec3, yaw: real)

  /**
    The exit transform of `side` (the world one from the component's position
    and axes, the local one from the origin and the local axes): half the
    length out along forward for north and south, half the width out along
    right for east and west, the sidewalk's width further when it is
    included, turned to face outward. Any other value, such as no exit or
    several at once, leaves the transform as it is.
  */
  function ExitPlacement(rect: Rectangle, side: bv32, includeSidewalk: bool, sidewalkWidth: real,
                         origin: Vec3, axes: Basis): (r: Placement)
    ensures side !in {North, South, East, West} ==> r == Placement(origin, 0.0)
  {
    var extra := if includeSidewalk then sidewalkWidth else 0.0;
    if side == North then Placement(Add(origin, Scale(axes.forward, rect.length * 0.5 + extra)), 0.0)
    else if side == South then Placement(Sub(origin, Scale(axes.forward, rect.length * 0.5 + extra)), 180.0)
    else if side == East then Placement(Add(origin, Scale(axes.right, rect.width * 0.5 + extra)), -90.0)
    else if side == West then Placement(Sub(origin, Scale(axes.right, rect.width * 0.5 + extra)), 90.0)
    else Placement(origin, 0.0)
  }

  /** The outward direction of a side: forward, -forward, right or -right. */
  function Outward(side: bv32, axes: Basis): Vec3 {
    if side == North then axes.forward
    else if side == South then Neg(axes.forward)
    else if side == East then axes.right
    else Neg(axes.right)
  }

  /** The two road corners bounding a side, west to east or south to north. */
  function EdgeOf(side: bv32, p: Corners): (Vec3, Vec3) {
    if side == North then (p.nw, p.ne)
    else if side == South then (p.sw, p.se)
    else if side == East then (p.se, p.ne)
    else (p.sw, p.nw)
  }

  /**
    Without the sidewalk, an exit sits at the midpoint of its side's road
    edge, the edge the side's extension quad starts from.
  */
  lemma ExitOnRoadEdge(rect: Rectangle, side: bv32, sidewalkWidth: real, origin: Vec3, axes: Basis)
    requires side in {North, South, East, West}
    ensures var edge := EdgeOf(side, RoadCorners(rect, axes));
            ExitPlacement(rect, side, false, sidewalkWidth, origin, axes).position
              == Add(origin, Scale(Add(edge.0, edge.1), 0.5))
  {
    var hw, hl := rect.width * 0.5, rect.length * 0.5;
    var r, f := axes.right, axes.forward;
    if side == North || side == South {
      assert Scale(Add(Add(Scale(Neg(r), hw), Scale(f, hl)), Add(Scale(r, hw), Scale(f, hl))), 0.5) == Scale(f, hl);
      assert Scale(Add(Sub(Scale(Neg(r), hw), Scale(f, hl)), Sub(Scale(r, hw), Scale(f, hl))), 0.5) == Neg(Scale(f, hl));
    } else {
      assert Scale(Add(Sub(Scale(r, hw), Scale(f, hl)), Add(Scale(r, hw), Scale(f, hl))), 0.5) == Scale(r, hw);
      assert Scale(Add(Sub(Scale(Neg(r), hw), Scale(f, hl)), Add(Scale(Neg(r), hw), Scale(f, hl))), 0.5) == Neg(Scale(r, hw));
    }
  }

  /** Including the sidewalk moves an exit exactly the sidewalk's width further along its side's outward direction. */
  lemma ExitSidewalkShift(rect: Rectangle, side: bv32, sidewalkWidth: real, origin: Vec3, axes: Basis)
    requires side in {North, South, East, West}
    ensures ExitPlacement(rect, side, true, sidewalkWidth, origin, axes).position
              == Add(ExitPlacement(rect, side, false, sidewalkWidth, origin, axes).position, Scale(Outward(side, axes), sidewalkWidth))
  {
    var o, f, r, sw := origin, axes.forward, axes.right, sidewalkWidth;
    var hl, hw := rect.length * 0.5, rect.width * 0.5;
    ScaleSum(f, hl, sw);
    ScaleSum(r, hw, sw);
    if side == North {
      assert Add(o, Add(Scale(f, hl), Scale(f, sw))) == Add(Add(o, Scale(f, hl)), Scale(f, sw));
    } else if side == South {
      assert Sub(o, Add(Scale(f, hl), Scale(f, sw))) == Add(Sub(o, Scale(f, hl)), Scale(Neg(f), sw));
    } else if side == East {
      assert Add(o, Add(Scale(r, hw), Scale(r, sw))) == Add(Add(o, Scale(r, hw)), Scale(r, sw));
    } else {
      assert Sub(o, Add(Scale(r, hw), Scale(r, sw))) == Add(Sub(o, Scale(r, hw)), Scale(Neg(r), sw));
    }
  }

  /** Scaling distributes over a sum of factors. */
  lemma ScaleSum(v: Vec3, a: real, b: real)
    ensures Scale(v, a + b) == Add(Scale(v, a), Scale(v, b))
  {
    assert v.x * (a + b) == v.x * a + v.x * b;
    assert v.y * (a + b) == v.y * a + v.y * b;
    assert v.z * (a + b) == v.z * a + v.z * b;
  }

  /**
    Opposite exits mirror each other through the origin and face opposite
    ways: north and south, east and west.
  */
  lemma OppositeExits(rect: Rectangle, includeSidewalk: bool, sidewalkWidth: real, origin: Vec3, axes: Basis)
    ensures var n := ExitPlacement(rect, North, includeSidewalk, sidewalkWidth, origin, axes);
            var s := ExitPlacement(rect, South, includeSidewalk, sidewalkWidth, origin, axes);
            Sub(n.position, origin) == Neg(Sub(s.position, origin)) && s.yaw - n.yaw == 180.0
    ensures var e := ExitPlacement(rect, East, includeSidewalk, sidewalkWidth, origin, axes);
            var w := ExitPlacement(rect, West, includeSidewalk, sidewalkWidth, origin, axes);
            Sub(e.position, origin) == Neg(Sub(w.position, origin)) && w.yaw - e.yaw == 180.0
  {
  }
}
