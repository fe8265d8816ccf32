/**
  The circular intersection, the same in both revisions of the intersection
  component: the circle is cut into equal arc segments, a segment is left
  out when it comes within an exit's half-angle, the road is a fan of one
  triangle per remaining segment and the sidewalk a ring of two quads (top
  and curb) per remaining segment. Each build counts the remaining segments
  first, declares its entry with exactly that room and then fills it.
*/
module CircleIntersection {
  import opened Wrappers
  import opened Geometry
  import opened Meshes
  import opened Road
  import opened Sidewalk
  import opened IntersectionParts

  // -------------------------------------------------------------- settings

  /**
    An exit of the circle: its direction in degrees of yaw and the width of
    the road leaving there. The older revision's exits also carry a sidewalk
    flag, which nothing here reads.
  */
  datatype CircleExit = CircleExit(angleDegrees: real, roadWidth: real)

  /** A new exit: at 0 degrees, 500 units wide. */
  const DefaultExit := CircleExit(0.0, 500.0)

  /** The circle's radius (unclamped), its precision (the arc length a segment aims at) and its exits. */
  datatype Circle = Circle(radius: real, precision: real, exits: seq<CircleExit>)
  {
    /** The precision setter keeps the value within [10, 10000]. */
    predicate Valid() {
      10.0 <= precision <= 10000.0
    }
  }

  /** A new component's circle: radius 600, precision 40, no exits. */
  const DefaultCircle := Circle(600.0, 40.0, [])

  /** Setting the precision: the value clamped to [10, 10000]. */
  function WithPrecision(c: Circle, value: real): (r: Circle)
    ensures r.Valid() && r.radius == c.radius && r.exits == c.exits
    ensures 10.0 <= value <= 10000.0 ==> r.precision == value
    ensures value < 10.0 ==> r.precision == 10.0
    ensures value > 10000.0 ==> r.precision == 10000.0
  {
    c.(precision := Clamp(value, 10.0, 10000.0))
  }

  // --------------------------------------------------------------- segments

  /** The circle's circumference, 2·π·radius. */
  function Circumference(c: Circle): real {
    2.0 * PI * c.radius
  }

  /** `GetCircleSegmentCount`: the circumference over the precision, rounded up, and never fewer than 8. */
  function SegmentCount(c: Circle): (r: nat)
    requires c.Valid()
    ensures r >= 8
  {
    MaxInt(8, Ceil(Circumference(c) / c.precision))
  }

  /**
    The segments cover the circle in arcs no longer than the precision, and
    above the minimum of 8 there is no segment to spare: one fewer would
    leave an arc longer than the precision.
  */
  lemma SegmentsCoverCircle(c: Circle)
    requires c.Valid()
    ensures SegmentCount(c) as real * c.precision >= Circumference(c)
    ensures SegmentCount(c) > 8 ==> (SegmentCount(c) - 1) as real * c.precision < Circumference(c)
  {
    var x := Circumference(c) / c.precision;
    CoverBounds(Circumference(c), c.precision, Ceil(x), SegmentCount(c));
  }

  /** With n at least ⌈total / p⌉, and equal to it when above 8, n pieces of length p cover the total, and n - 1 do not unless n is 8. */
  lemma CoverBounds(total: real, p: real, ceiling: int, n: int)
    requires p > 0.0 && total / p <= ceiling as real < total / p + 1.0 && n == MaxInt(8, ceiling)
    ensures n as real * p >= total
    ensures n > 8 ==> (n - 1) as real * p < total
  {
    QuotientBounds(total, p, n as real);
    QuotientBounds(total, p, (n - 1) as real);
  }

  /** k pieces of length p cover the total exactly when k is at least total / p. */
  lemma QuotientBounds(total: real, p: real, k: real)
    requires p > 0.0
    ensures k >= total / p ==> k * p >= total
    ensures k < total / p ==> k * p < total
  {
    var x := total / p;
    assert x * p == total;
    assert (k - x) * p == k * p - x * p;
    if k >= x {
      assert (k - x) * p >= 0.0;
    } else {
      assert (k - x) * p < 0.0;
    }
  }

  /** The angle in degrees where segment i starts: i times the segment's arc. */
  function SegmentStart(c: Circle, i: int): real
    requires c.Valid()
  {
    i as real * Step(c)
  }

  /** The arc ends the builds compute, i·step and (i+1)·step, are the starts of segments i and i + 1. */
  lemma StartsAt(c: Circle, i: int, step: real, a0: real, a1: real)
    requires c.Valid() && step == Step(c) && a0 == i as real * step && a1 == (i + 1) as real * step
    ensures a0 == SegmentStart(c, i) && a1 == SegmentStart(c, i + 1)
  {
  }

  /** The arc of one segment in degrees, 360 over the segment count. */
  function Step(c: Circle): real
    requires c.Valid()
  {
    360.0 / SegmentCount(c) as real
  }

  /** The segments tile the full turn: segment 0 starts at 0 degrees and the last one ends at 360. */
  lemma SegmentsTileTurn(c: Circle, i: int)
    requires c.Valid()
    ensures SegmentStart(c, 0) == 0.0 && SegmentStart(c, SegmentCount(c)) == 360.0
    ensures SegmentStart(c, i) < SegmentStart(c, i + 1)
  {
    var n := SegmentCount(c) as real;
    assert n * (360.0 / n) == 360.0;
    assert SegmentStart(c, i + 1) - SegmentStart(c, i) == 360.0 / n;
  }

  // ------------------------------------------------------------ angle delta

  /**
    The difference a - b folded into [-180, 180]: C#'s float remainder by
    360 (which keeps the dividend's sign), then one turn off when above 180,
    then one turn on when below -180.
  */
  function SignedDelta(a: real, b: real): (r: real)
    ensures -180.0 <= r <= 180.0
  {
    var d := FMod(a - b, 360.0);
    var d1 := if d > 180.0 then d - 360.0 else d;
    if d1 < -180.0 then d1 + 360.0 else d1
  }

  /** `AngleDelta`: the size of the folded difference, between 0 and 180 degrees. */
  function AngleDelta(a: real, b: real): (r: real)
    ensures 0.0 <= r <= 180.0
  {
    Abs(SignedDelta(a, b))
  }

  /** The folded difference is a - b less a whole number of turns. */
  lemma SignedDeltaWinding(a: real, b: real) returns (k: int)
    ensures SignedDelta(a, b) == a - b - 360.0 * k as real
  {
    var t := Trunc((a - b) / 360.0);
    var d := FMod(a - b, 360.0);
    assert d == a - b - 360.0 * t as real;
    if d > 180.0 {
      k := t + 1;
    } else if d < -180.0 {
      k := t - 1;
    } else {
      k := t;
    }
  }

  /**
    `AngleDelta` is the angular distance between a and b: a - b less some
    whole number of turns, and no nearer to zero for any other number of
    turns.
  */
  lemma AngleDeltaNearest(a: real, b: real, j: int)
    ensures AngleDelta(a, b) <= Abs(a - b - 360.0 * j as real)
  {
    var k := SignedDeltaWinding(a, b);
    var s := SignedDelta(a, b);
    assert a - b - 360.0 * j as real == s + 360.0 * (k - j) as real;
    if k - j >= 1 {
      assert 360.0 * (k - j) as real >= 360.0;
    } else if k - j <= -1 {
      assert 360.0 * (k - j) as real <= -360.0;
    }
  }

  /** Truncation is odd: the remainder of -x is minus the remainder of x. */
  lemma RemainderOdd(x: real)
    ensures FMod(-x, 360.0) == -FMod(x, 360.0)
  {
    assert (-x) / 360.0 == -(x / 360.0);
    assert Trunc(-(x / 360.0)) == -Trunc(x / 360.0);
  }

  /** `AngleDelta` is symmetric: a is as far from b as b is from a. */
  lemma AngleDeltaSymmetric(a: real, b: real)
    ensures AngleDelta(a, b) == AngleDelta(b, a)
  {
    RemainderOdd(a - b);
    assert b - a == -(a - b);
  }

  // --------------------------------------------------------------- blocking

  /** An exit's half-angle: the angle, in degrees, whose tangent is the exit's road width over the radius. */
  function HalfAngle(e: CircleExit, radius: real, m: Maths): (r: real)
    ensures m.Sane() && e.roadWidth >= 0.0 && radius > 0.0 ==> 0.0 <= r < 90.0
  {
    RadianToDegree(m.atan(m.Divide(e.roadWidth, radius)))
  }

  /** Whether an exit blocks the arc from a0 to a1: either end lies strictly within the exit's half-angle of it. */
  predicate ExitBlocks(e: CircleExit, radius: real, a0: real, a1: real, m: Maths) {
    AngleDelta(a0, e.angleDegrees) < HalfAngle(e, radius, m) || AngleDelta(a1, e.angleDegrees) < HalfAngle(e, radius, m)
  }

  /** Whether some exit blocks the arc from a0 to a1. */
  predicate Blocked(c: Circle, a0: real, a1: real, m: Maths) {
    exists k :: 0 <= k < |c.exits| && ExitBlocks(c.exits[k], c.radius, a0, a1, m)
  }

  /**
    `ArcBlockedByExit`: looks at the exits in order and answers true at the
    first one that blocks the arc; false when none does, and so always
    false with no exits.
  */
  method ArcBlockedByExit(c: Circle, a0: real, a1: real, m: Maths) returns (blocked: bool)
    ensures blocked <==> Blocked(c, a0, a1, m)
    ensures c.exits == [] ==> !blocked
  {
    for k := 0 to |c.exits|
      invariant forall j :: 0 <= j < k ==> !ExitBlocks(c.exits[j], c.radius, a0, a1, m)
    {
      var exit := c.exits[k];
      var halfAngle := RadianToDegree(m.atan(m.Divide(exit.roadWidth, c.radius)));
      var ea := exit.angleDegrees;
      if AngleDelta(a0, ea) < halfAngle || AngleDelta(a1, ea) < halfAngle {
        return true;
      }
    }
    return false;
  }

  /** Whether segment i is drawn: no exit blocks its arc. */
  predicate Open(c: Circle, m: Maths, i: int)
    requires c.Valid()
  {
    !Blocked(c, SegmentStart(c, i), SegmentStart(c, i + 1), m)
  }

  /** The number of drawn segments among the first `upto`. */
  function ActiveCount(c: Circle, m: Maths, upto: nat): nat
    requires c.Valid()
  {
    if upto == 0 then 0 else ActiveCount(c, m, upto - 1) + (if Open(c, m, upto - 1) then 1 else 0)
  }

  /** At most every segment is drawn, and with no exits every one is. */
  lemma {:induction false} ActiveBounds(c: Circle, m: Maths, upto: nat)
    requires c.Valid()
    ensures ActiveCount(c, m, upto) <= upto
    ensures c.exits == [] ==> ActiveCount(c, m, upto) == upto
  {
    if upto > 0 {
      ActiveBounds(c, m, upto - 1);
    }
  }

  /**
    The counting pass both builds share: walks every segment with the same
    arc ends the drawing pass uses and counts those no exit blocks.
  */
  method CountActiveSegments(c: Circle, m: Maths) returns (activeSegments: nat)
    requires c.Valid()
    ensures activeSegments == ActiveCount(c, m, SegmentCount(c))
  {
    var segments := GetSegmentCount(c);
    var step := 360.0 / segments as real;
    assert step == Step(c);
    activeSegments := 0;
    for i := 0 to segments
      invariant activeSegments == ActiveCount(c, m, i)
    {
      var a0, a1 := i as real * step, (i + 1) as real * step;
      StartsAt(c, i, step, a0, a1);
      var blocked := ArcBlockedByExit(c, a0, a1, m);
      assert blocked == !Open(c, m, i);
      if !blocked {
        activeSegments := activeSegments + 1;
      }
    }
  }

  /** `GetCircleSegmentCount` as the builds call it. */
  method GetSegmentCount(c: Circle) returns (segments: nat)
    requires c.Valid()
    ensures segments == SegmentCount(c) && segments >= 8
  {
    var circumference := 2.0 * PI * c.radius;
    segments := MaxInt(8, Ceil(circumference / c.precision));
  }

  // ------------------------------------------------------------------ faces

  /** What a circle build writes for each drawn segment: the road's triangle, or the sidewalk's top and curb. */
  datatype Part = RoadPart | SidewalkPart(curb: Curb)

  /**
    The road triangle of segment i: the centre, then the rim points at the
    segment's two ends, facing up, with the start direction as its tangent.
  */
  function RoadTriangle(c: Circle, b: Basis, m: Maths, i: int): (r: Face)
    requires c.Valid()
    ensures r.Tri? && r.a == Zero3 && r.normal == b.up
  {
    var d0 := m.yawForward(SegmentStart(c, i));
    var d1 := m.yawForward(SegmentStart(c, i + 1));
    Tri(Zero3, Scale(d0, c.radius), Scale(d1, c.radius), b.up, d0, Zero2, Vec2(0.0, 1.0), Vec2(1.0, 1.0))
  }

  /** The length of the arc of `radius` from 0 to `a` degrees. */
  function ArcLength(radius: real, a: real): real {
    radius * (a * PI / 180.0)
  }

  /** The sidewalk's V where segment i starts: the inner rim's arc length up to there, over the texture repeat. */
  function CurbV(c: Circle, curb: Curb, m: Maths, i: int): real
    requires c.Valid()
  {
    m.Divide(ArcLength(c.radius, SegmentStart(c, i)), curb.textureRepeat)
  }

  /** The V the sidewalk build computes from the arc end a, through the arc length d, is the V where segment i starts. */
  lemma VAt(c: Circle, curb: Curb, m: Maths, i: int, innerR: real, a: real, d: real, v: real)
    requires c.Valid() && innerR == c.radius && a == SegmentStart(c, i)
    requires d == innerR * (a * PI / 180.0) && v == m.Divide(d, curb.textureRepeat)
    ensures v == CurbV(c, curb, m, i)
  {
    assert d == ArcLength(c.radius, SegmentStart(c, i));
  }

  /**
    The sidewalk's two quads of segment i: the top, from the outer rim at the
    curb's height to the inner rim at that height, facing up; then the curb
    face, from the raised inner rim down to the road's rim, facing the centre.
  */
  function SidewalkQuads(c: Circle, curb: Curb, b: Basis, m: Maths, i: int): (r: seq<Face>)
    requires c.Valid()
    ensures |r| == 2 && r[0].Quad? && r[1].Quad?
  {
    var d0 := m.yawForward(SegmentStart(c, i));
    var d1 := m.yawForward(SegmentStart(c, i + 1));
    var v0 := CurbV(c, curb, m, i);
    var v1 := CurbV(c, curb, m, i + 1);
    var i0 := Scale(d0, c.radius);
    var i1 := Scale(d1, c.radius);
    var o0 := Scale(d0, c.radius + curb.width);
    var o1 := Scale(d1, c.radius + curb.width);
    var h := curb.height;
    var tangent := m.normal(Sub(i1, i0));
    var heightUV := m.Divide(h, curb.textureRepeat);
    [FlatQuad(Raise(o0, b.up, h), Raise(o1, b.up, h), Raise(i1, b.up, h), Raise(i0, b.up, h), b.up, tangent,
              Vec2(1.0, v0), Vec2(1.0, v1), Vec2(0.0, v1), Vec2(0.0, v0)),
     Quad(Raise(i0, b.up, h), Raise(i1, b.up, h), i1, i0, Neg(d0), Neg(d1), Neg(d1), Neg(d0), tangent,
          Vec2(0.0, v0), Vec2(0.0, v1), Vec2(heightUV, v1), Vec2(heightUV, v0))]
  }

  /** The faces one drawn segment adds. */
  function SegmentFaces(part: Part, c: Circle, b: Basis, m: Maths, i: int): seq<Face>
    requires c.Valid()
  {
    match part
    case RoadPart => [RoadTriangle(c, b, m, i)]
    case SidewalkPart(curb) => SidewalkQuads(c, curb, b, m, i)
  }

  /** What segment i adds: its faces when it is drawn, nothing when an exit blocks it. */
  function SegmentGroup(part: Part, c: Circle, b: Basis, m: Maths, i: int): seq<Face>
    requires c.Valid()
  {
    if Open(c, m, i) then SegmentFaces(part, c, b, m, i) else []
  }

  /** What each of the first `upto` segments adds, in segment order. */
  function ArcGroups(part: Part, c: Circle, b: Basis, m: Maths, upto: nat): (r: seq<seq<Face>>)
    requires c.Valid()
    ensures |r| == upto && forall i :: 0 <= i < upto ==> r[i] == SegmentGroup(part, c, b, m, i)
  {
    seq(upto, i requires 0 <= i < upto => SegmentGroup(part, c, b, m, i))
  }

  /** The faces of the drawn segments among the first `upto`, in segment order. */
  function ArcFaces(part: Part, c: Circle, b: Basis, m: Maths, upto: nat): seq<Face>
    requires c.Valid()
  {
    Flatten(ArcGroups(part, c, b, m, upto))
  }

  /** The circle's road: a triangle for every drawn segment. */
  function CircleRoadFaces(c: Circle, b: Basis, m: Maths): seq<Face>
    requires c.Valid()
  {
    ArcFaces(RoadPart, c, b, m, SegmentCount(c))
  }

  /** The circle's sidewalk: a top and a curb quad for every drawn segment. */
  function CircleSidewalkFaces(c: Circle, curb: Curb, b: Basis, m: Maths): seq<Face>
    requires c.Valid()
  {
    ArcFaces(SidewalkPart(curb), c, b, m, SegmentCount(c))
  }

  /** The vertices a drawn segment takes: 3 for the road's triangle, 8 for the sidewalk's two quads. */
  function SegmentVertices(part: Part): nat {
    if part.RoadPart? then 3 else 8
  }

  /** The indices a drawn segment takes: 3 for the road's triangle, 12 for the sidewalk's two quads. */
  function SegmentIndices(part: Part): nat {
    if part.RoadPart? then 3 else 12
  }

  /**
    The room the builds declare is exactly what they write: the faces of the
    drawn segments among the first `upto` take the per-segment vertices and
    indices once for each drawn segment.
  */
  lemma {:induction false} ArcCapacity(part: Part, c: Circle, b: Basis, m: Maths, upto: nat)
    requires c.Valid()
    ensures VertexCount(ArcFaces(part, c, b, m, upto)) == ActiveCount(c, m, upto) * SegmentVertices(part)
    ensures IndexCount(ArcFaces(part, c, b, m, upto)) == ActiveCount(c, m, upto) * SegmentIndices(part)
  {
    if upto > 0 {
      var k := upto - 1;
      ArcCapacity(part, c, b, m, k);
      var groups := ArcGroups(part, c, b, m, upto);
      assert groups[..k] == ArcGroups(part, c, b, m, k);
      CountsAppend(ArcFaces(part, c, b, m, k), groups[k]);
      if Open(c, m, k) {
        SegmentCounts(part, c, b, m, k);
      }
    }
  }

  /** The circle's road takes 3 vertices and 3 indices for each drawn segment. */
  lemma CircleRoadCapacity(c: Circle, b: Basis, m: Maths, active: nat)
    requires c.Valid() && active == ActiveCount(c, m, SegmentCount(c))
    ensures VertexCount(CircleRoadFaces(c, b, m)) == active * 3 && IndexCount(CircleRoadFaces(c, b, m)) == active * 3
  {
    ArcCapacity(RoadPart, c, b, m, SegmentCount(c));
  }

  /** The circle's sidewalk takes 8 vertices and 12 indices for each drawn segment. */
  lemma CircleSidewalkCapacity(c: Circle, curb: Curb, b: Basis, m: Maths, active: nat)
    requires c.Valid() && active == ActiveCount(c, m, SegmentCount(c))
    ensures VertexCount(CircleSidewalkFaces(c, curb, b, m)) == active * 8
    ensures IndexCount(CircleSidewalkFaces(c, curb, b, m)) == active * 12
  {
    ArcCapacity(SidewalkPart(curb), c, b, m, SegmentCount(c));
  }

  /** One drawn segment's faces take the per-segment vertices and indices. */
  lemma SegmentCounts(part: Part, c: Circle, b: Basis, m: Maths, i: int)
    requires c.Valid()
    ensures VertexCount(SegmentFaces(part, c, b, m, i)) == SegmentVertices(part)
    ensures IndexCount(SegmentFaces(part, c, b, m, i)) == SegmentIndices(part)
  {
    var fs := SegmentFaces(part, c, b, m, i);
    if part.RoadPart? {
      TriCounts(fs);
    } else {
      QuadCounts(fs);
    }
  }

  // ---------------------------------------------------------------- builds

  /**
    `BuildCircleRoad`: counts the drawn segments, declares the road entry
    with 3 vertices and 3 indices for each, in the given material or the
    default one and with collision, then fills it with the road's triangles.
  */
  method BuildCircleRoad(builder: MeshBuilder, c: Circle, roadMaterial: Option<Material>, b: Basis, m: Maths)
    requires builder.Valid() && c.Valid()
    modifies builder
    ensures builder.Valid()
    ensures builder.subMeshes == old(builder.subMeshes)[IntersectionRoadKey :=
              Filled(CircleRoadFaces(c, b, m), roadMaterial.GetOr(DefaultRoadMaterial), true)]
    ensures builder.order == if IntersectionRoadKey in old(builder.subMeshes) then old(builder.order)
                             else old(builder.order) + [IntersectionRoadKey]
    ensures builder.isDirty == old(builder.isDirty) && builder.castShadows == old(builder.castShadows)
    ensures builder.meshes == old(builder.meshes) && builder.collider == old(builder.collider)
  {
    var activeSegments := CountActiveSegments(c, m);
    var material := roadMaterial.GetOr(DefaultRoadMaterial);
    ghost var faces := CircleRoadFaces(c, b, m);
    CircleRoadCapacity(c, b, m, activeSegments);
    builder.InitSubmesh(IntersectionRoadKey, activeSegments * 3, activeSegments * 3, material, true);
    ghost var table := builder.subMeshes;
    ghost var stages := StagesOf(faces, material, true);
    StagesEnds(stages, faces, material, true);
    Declared(table, IntersectionRoadKey, faces, material, true);
    assert stages[0] == Partial(faces, 0, material, true);
    EmitCircleRoad(builder, c, b, m, table, builder.order, stages, material);
    FinishEntry(table, builder.order, IntersectionRoadKey, faces, material, true);
    UpdateTwice(old(builder.subMeshes), IntersectionRoadKey, table[IntersectionRoadKey], stages[|faces|]);
  }

  /** The drawing pass of `BuildCircleRoad`: every segment no exit blocks adds its triangle, in segment order. */
  method EmitCircleRoad(builder: MeshBuilder, c: Circle, b: Basis, m: Maths, ghost table: map<Key, SubMesh>,
                        ghost order: seq<Key>, ghost stages: seq<SubMesh>, ghost material: Material)
    requires c.Valid() && IntersectionRoadKey in table && builder.order == order
    requires Stages(stages, CircleRoadFaces(c, b, m), material, true)
    requires builder.subMeshes == table[IntersectionRoadKey := stages[0]]
    modifies builder
    ensures builder.subMeshes == table[IntersectionRoadKey := stages[|CircleRoadFaces(c, b, m)|]]
    ensures builder.order == order && builder.isDirty == old(builder.isDirty)
    ensures builder.castShadows == old(builder.castShadows)
    ensures builder.meshes == old(builder.meshes) && builder.collider == old(builder.collider)
  {
    ghost var groups := ArcGroups(RoadPart, c, b, m, SegmentCount(c));
    var segments := GetSegmentCount(c);
    var step := 360.0 / segments as real;
    assert step == Step(c);
    ghost var w := 0;
    assert groups[..0] == [];
    for i := 0 to segments
      invariant w == |Flatten(groups[..i])| && w < |stages|
      invariant builder.subMeshes == table[IntersectionRoadKey := stages[w]]
      invariant builder.order == order && builder.isDirty == old(builder.isDirty)
      invariant builder.castShadows == old(builder.castShadows)
      invariant builder.meshes == old(builder.meshes) && builder.collider == old(builder.collider)
    {
      var a0, a1 := i as real * step, (i + 1) as real * step;
      StartsAt(c, i, step, a0, a1);
      FlattenGroup(groups, i);
      var blocked := ArcBlockedByExit(c, a0, a1, m);
      if blocked {
        continue;
      }
      AddRoadSegment(builder, c, b, m, a0, a1, i, table, order, groups, stages, w, material);
      w := w + 1;
    }
    assert groups[..segments] == groups;
  }

  /** One drawn segment of the road: its triangle, from the directions at the arc's two ends. */
  method AddRoadSegment(builder: MeshBuilder, c: Circle, b: Basis, m: Maths, a0: real, a1: real, ghost i: nat,
                        ghost table: map<Key, SubMesh>, ghost order: seq<Key>, ghost groups: seq<seq<Face>>,
                        ghost stages: seq<SubMesh>, ghost w: nat, ghost material: Material)
    requires c.Valid() && a0 == SegmentStart(c, i) && a1 == SegmentStart(c, i + 1)
    requires IntersectionRoadKey in table && builder.order == order && Stages(stages, Flatten(groups), material, true)
    requires i < |groups| && groups[i] == SegmentFaces(RoadPart, c, b, m, i)
    requires w == |Flatten(groups[..i])| && w < |stages| && builder.subMeshes == table[IntersectionRoadKey := stages[w]]
    modifies builder
    ensures w + 1 < |stages| && builder.subMeshes == table[IntersectionRoadKey := stages[w + 1]]
    ensures builder.order == order && builder.isDirty == old(builder.isDirty)
    ensures builder.castShadows == old(builder.castShadows)
    ensures builder.meshes == old(builder.meshes) && builder.collider == old(builder.collider)
  {
    var d0 := m.yawForward(a0);
    var d1 := m.yawForward(a1);
    var tri := Tri(Zero3, Scale(d0, c.radius), Scale(d1, c.radius), b.up, d0, Zero2, Vec2(0.0, 1.0), Vec2(1.0, 1.0));
    EmitGrouped(builder, IntersectionRoadKey, table, order, groups, stages, i, w, 0, tri, material, true);
  }

  /**
    `BuildCircleSidewalk`: counts the drawn segments, declares the sidewalk
    entry with 8 vertices and 12 indices for each, in the given material or
    the default one and with collision, then fills it with the sidewalk's
    top and curb quads.
  */
  method BuildCircleSidewalk(builder: MeshBuilder, c: Circle, curb: Curb, sidewalkMaterial: Option<Material>, b: Basis, m: Maths)
    requires builder.Valid() && c.Valid()
    modifies builder
    ensures builder.Valid()
    ensures builder.subMeshes == old(builder.subMeshes)[IntersectionSidewalkKey :=
              Filled(CircleSidewalkFaces(c, curb, b, m), sidewalkMaterial.GetOr(DefaultSidewalkMaterial), true)]
    ensures builder.order == if IntersectionSidewalkKey in old(builder.subMeshes) then old(builder.order)
                             else old(builder.order) + [IntersectionSidewalkKey]
    ensures builder.isDirty == old(builder.isDirty) && builder.castShadows == old(builder.castShadows)
    ensures builder.meshes == old(builder.meshes) && builder.collider == old(builder.collider)
  {
    var activeSegments := CountActiveSegments(c, m);
    var material := sidewalkMaterial.GetOr(DefaultSidewalkMaterial);
    ghost var faces := CircleSidewalkFaces(c, curb, b, m);
    CircleSidewalkCapacity(c, curb, b, m, activeSegments);
    builder.InitSubmesh(IntersectionSidewalkKey, activeSegments * 8, activeSegments * 12, material, true);
    ghost var table := builder.subMeshes;
    ghost var stages := StagesOf(faces, material, true);
    StagesEnds(stages, faces, material, true);
    Declared(table, IntersectionSidewalkKey, faces, material, true);
    assert stages[0] == Partial(faces, 0, material, true);
    EmitCircleSidewalk(builder, c, curb, b, m, table, builder.order, stages, material);
    FinishEntry(table, builder.order, IntersectionSidewalkKey, faces, material, true);
    UpdateTwice(old(builder.subMeshes), IntersectionSidewalkKey, table[IntersectionSidewalkKey], stages[|faces|]);
  }

  /** The drawing pass of `BuildCircleSidewalk`: every segment no exit blocks adds its top and curb quads, in segment order. */
  method EmitCircleSidewalk(builder: MeshBuilder, c: Circle, curb: Curb, b: Basis, m: Maths, ghost table: map<Key, SubMesh>,
                            ghost order: seq<Key>, ghost stages: seq<SubMesh>, ghost material: Material)
    requires c.Valid() && IntersectionSidewalkKey in table && builder.order == order
    requires Stages(stages, CircleSidewalkFaces(c, curb, b, m), material, true)
    requires builder.subMeshes == table[IntersectionSidewalkKey := stages[0]]
    modifies builder
    ensures builder.subMeshes == table[IntersectionSidewalkKey := stages[|CircleSidewalkFaces(c, curb, b, m)|]]
    ensures builder.order == order && builder.isDirty == old(builder.isDirty)
    ensures builder.castShadows == old(builder.castShadows)
    ensures builder.meshes == old(builder.meshes) && builder.collider == old(builder.collider)
  {
    ghost var groups := ArcGroups(SidewalkPart(curb), c, b, m, SegmentCount(c));
    var segments := GetSegmentCount(c);
    var step := 360.0 / segments as real;
    assert step == Step(c);
    var innerR := c.radius;
    var outerR := c.radius + curb.width;
    ghost var w := 0;
    assert groups[..0] == [];
    for i := 0 to segments
      invariant w == |Flatten(groups[..i])| && w < |stages|
      invariant builder.subMeshes == table[IntersectionSidewalkKey := stages[w]]
      invariant builder.order == order && builder.isDirty == old(builder.isDirty)
      invariant builder.castShadows == old(builder.castShadows)
      invariant builder.meshes == old(builder.meshes) && builder.collider == old(builder.collider)
    {
      var a0, a1 := i as real * step, (i + 1) as real * step;
      StartsAt(c, i, step, a0, a1);
      FlattenGroup(groups, i);
      var blocked := ArcBlockedByExit(c, a0, a1, m);
      if blocked {
        continue;
      }
      AddSidewalkSegment(builder, c, curb, b, m, innerR, outerR, a0, a1, i, table, order, groups, stages, w, material);
      w := w + 2;
    }
    assert groups[..segments] == groups;
  }

  /** One drawn segment of the sidewalk: its top quad, then its curb quad. */
  method AddSidewalkSegment(builder: MeshBuilder, c: Circle, curb: Curb, b: Basis, m: Maths, innerR: real, outerR: real,
                            a0: real, a1: real, ghost i: nat, ghost table: map<Key, SubMesh>, ghost order: seq<Key>,
                            ghost groups: seq<seq<Face>>, ghost stages: seq<SubMesh>, ghost w: nat, ghost material: Material)
    requires c.Valid() && innerR == c.radius && outerR == c.radius + curb.width
    requires a0 == SegmentStart(c, i) && a1 == SegmentStart(c, i + 1)
    requires IntersectionSidewalkKey in table && builder.order == order && Stages(stages, Flatten(groups), material, true)
    requires i < |groups| && groups[i] == SidewalkQuads(c, curb, b, m, i)
    requires w == |Flatten(groups[..i])| && w < |stages| && builder.subMeshes == table[IntersectionSidewalkKey := stages[w]]
    modifies builder
    ensures w + 2 < |stages| && builder.subMeshes == table[IntersectionSidewalkKey := stages[w + 2]]
    ensures builder.order == order && builder.isDirty == old(builder.isDirty)
    ensures builder.castShadows == old(builder.castShadows)
    ensures builder.meshes == old(builder.meshes) && builder.collider == old(builder.collider)
  {
    var d0 := innerR * (a0 * PI / 180.0);
    var d1 := innerR * (a1 * PI / 180.0);
    var v0 := m.Divide(d0, curb.textureRepeat);
    var v1 := m.Divide(d1, curb.textureRepeat);
    var d0V := m.yawForward(a0);
    var d1V := m.yawForward(a1);
    var n0 := Neg(d0V);
    var n1 := Neg(d1V);
    var i0 := Scale(d0V, innerR);
    var i1 := Scale(d1V, innerR);
    var o0 := Scale(d0V, outerR);
    var o1 := Scale(d1V, outerR);
    var segmentTangent := m.normal(Sub(i1, i0));
    var h := curb.height;
    var top := FlatQuad(Raise(o0, b.up, h), Raise(o1, b.up, h), Raise(i1, b.up, h), Raise(i0, b.up, h), b.up, segmentTangent,
                        Vec2(1.0, v0), Vec2(1.0, v1), Vec2(0.0, v1), Vec2(0.0, v0));
    VAt(c, curb, m, i, innerR, a0, d0, v0);
    VAt(c, curb, m, i + 1, innerR, a1, d1, v1);
    assert top == SidewalkQuads(c, curb, b, m, i)[0];
    EmitGrouped(builder, IntersectionSidewalkKey, table, order, groups, stages, i, w, 0, top, material, true);
    var heightUV := m.Divide(h, curb.textureRepeat);
    var curbFace := Quad(Raise(i0, b.up, h), Raise(i1, b.up, h), i1, i0, n0, n1, n1, n0, segmentTangent,
                         Vec2(0.0, v0), Vec2(0.0, v1), Vec2(heightUV, v1), Vec2(heightUV, v0));
    EmitGrouped(builder, IntersectionSidewalkKey, table, order, groups, stages, i, w, 1, curbFace, material, true);
  }

  // ------------------------------------------------------------ properties

  /**
    The road is a fan around the centre: every triangle starts at the
    centre, its other two corners lie on the rim at its arc's two ends, and
    each triangle's last corner is the next one's second, so neighbouring
    drawn triangles share their edge.
  */
  lemma RoadFan(c: Circle, b: Basis, m: Maths, i: int)
    requires c.Valid()
    ensures RoadTriangle(c, b, m, i).a == Zero3
    ensures RoadTriangle(c, b, m, i).b == Scale(m.yawForward(SegmentStart(c, i)), c.radius)
    ensures RoadTriangle(c, b, m, i).c == Scale(m.yawForward(SegmentStart(c, i + 1)), c.radius)
    ensures RoadTriangle(c, b, m, i).c == RoadTriangle(c, b, m, i + 1).b
  {
  }

  /**
    The sidewalk sits on the road's rim: the bottom edge of segment i's curb
    is the rim edge of segment i's road triangle, and the curb's top edge is
    the top's inner edge, so top, curb and road meet without gaps.
  */
  lemma SidewalkMeetsRoad(c: Circle, curb: Curb, b: Basis, m: Maths, i: int)
    requires c.Valid()
    ensures var top := SidewalkQuads(c, curb, b, m, i)[0];
            var face := SidewalkQuads(c, curb, b, m, i)[1];
            var tri := RoadTriangle(c, b, m, i);
            && face.c == tri.c && face.d == tri.b
            && face.a == top.d && face.b == top.c
            && face.a == Raise(tri.b, b.up, curb.height) && face.b == Raise(tri.c, b.up, curb.height)
  {
  }

  /**
    The sidewalk's V runs continuously along the ring: it is 0 where the
    first segment starts, each segment's quads end at the V where the next
    one's start, and with a positive texture repeat and a non-negative radius
    it never decreases from one segment to a later one.
  */
  lemma {:induction false} CurbVContinuous(c: Circle, curb: Curb, b: Basis, m: Maths, i: int, j: int)
    requires c.Valid() && curb.textureRepeat > 0.0 && c.radius >= 0.0 && i <= j
    ensures CurbV(c, curb, m, 0) == 0.0
    ensures SidewalkQuads(c, curb, b, m, i)[0].uvB.y == SidewalkQuads(c, curb, b, m, i + 1)[0].uvA.y
    ensures SidewalkQuads(c, curb, b, m, i)[1].uvB.y == SidewalkQuads(c, curb, b, m, i + 1)[1].uvA.y
    ensures CurbV(c, curb, m, i) <= CurbV(c, curb, m, j)
  {
    SegmentsTileTurn(c, 0);
    var s0, s1 := SegmentStart(c, i), SegmentStart(c, j);
    assert s0 <= s1 by {
      assert s1 - s0 == (j - i) as real * Step(c);
    }
    ArcLengthGrows(c.radius, s0, s1);
    DivideGrows(ArcLength(c.radius, s0), ArcLength(c.radius, s1), curb.textureRepeat);
  }

  /** The arc of a non-negative radius grows with the angle. */
  lemma ArcLengthGrows(radius: real, a0: real, a1: real)
    requires radius >= 0.0 && a0 <= a1
    ensures ArcLength(radius, a0) <= ArcLength(radius, a1)
  {
    assert a0 * PI / 180.0 <= a1 * PI / 180.0;
    assert radius * (a1 * PI / 180.0 - a0 * PI / 180.0) >= 0.0;
  }

  /** Dividing by a positive number keeps the order. */
  lemma DivideGrows(x: real, y: real, d: real)
    requires x <= y && d > 0.0
    ensures x / d <= y / d
  {
    assert y / d - x / d == (y - x) / d;
  }
}
