/**
  The parking lot's wheel stops: one curb near the back of every spot, in
  the entry "parking_curbs", with collision. With one segment (or fewer) a
  curb is a box of five quads; with S > 1 segments it is a bevelled bar
  whose cross-section is a profile of S + 1 points, drawn as S body quads
  and two end-cap triangles per segment.
*/
module ParkingCurbs {
  import opened Wrappers
  import opened Geometry
  import opened Meshes
  import opened ParkingLot

  /** The entry of the curbs. */
  const CurbsKey := Named("parking_curbs")

  /** Whether `BuildCurbs` draws anything: curbs are on and the lot has a spot. */
  predicate DrawsCurbs(st: LotSettings) {
    st.hasCurbs && st.spotCount > 0
  }

  /** Whether the curbs are bevelled: more than one segment. */
  predicate Bevelled(st: LotSettings) {
    st.curbsSegments > 1
  }

  /** The vertices declared for one curb: 20 for a box, 4 per body quad and 3 per cap triangle for a bevelled curb. */
  function VerticesPerCurb(st: LotSettings): (r: nat)
    ensures r >= 20
  {
    if !Bevelled(st) then 20 else st.curbsSegments * 4 + st.curbsSegments * 3 * 2
  }

  /** The indices declared for one curb: 30 for a box, 6 per body quad and 3 per cap triangle for a bevelled curb. */
  function IndicesPerCurb(st: LotSettings): nat {
    if !Bevelled(st) then 30 else st.curbsSegments * 6 + st.curbsSegments * 3 * 2
  }

  /** The x that `BuildCurbs` hands to a curb of spot i: the middle of the spot's width, i · spacing + width / 2. */
  function CurbCenterX(st: LotSettings, m: Maths, i: int): real {
    SpotX(st, m, i) + st.spotWidth * 0.5
  }

  /**
    Where a curb sits: its centre on the ground, the directions across and
    along the spot, its half width and half depth, and its full width (the
    fill ratio of the spot's width).
  */
  datatype CurbBox = CurbBox(center: Vec3, perpDir: Vec3, lengthDir: Vec3, halfW: real, halfD: real, curbWidth: real)
  {
    /** A point of the left end (`side` = -1) or the right end (`side` = 1) at profile point p. */
    function At(side: real, p: Vec2): Vec3 {
      Add(Add(Add(center, Scale(perpDir, side * halfW)), Scale(lengthDir, p.x)), Scale(WorldUp, p.y))
    }
  }

  /**
    The curb of the spot whose width centre is at `centerX`, leaning by the
    angle with the given sine and cosine: half the depth plus the offset in
    from the spot's back, across the middle of its width.
  */
  function Box(st: LotSettings, sinAngle: real, cosAngle: real, centerX: real): CurbBox {
    var curbWidth := st.spotWidth * st.curbsFillRatio;
    var halfD := st.curbsDepth * 0.5;
    var spotX := centerX - st.spotWidth * 0.5;
    var backOffsetFromFront := st.spotLength - halfD - st.curbsOffset;
    var curbCenterX := spotX + st.spotWidth * 0.5 * cosAngle - backOffsetFromFront * sinAngle;
    var curbCenterY := st.spotWidth * 0.5 * sinAngle + backOffsetFromFront * cosAngle;
    CurbBox(Vec3(curbCenterX, curbCenterY, 0.0), Vec3(cosAngle, sinAngle, 0.0), Vec3(-sinAngle, cosAngle, 0.0),
            curbWidth * 0.5, halfD, curbWidth)
  }

  // ---------------------------------------------------------------- box curb

  /**
    `DrawSimpleCurb`: the top, front, back, left and right faces of the box,
    textured by the curb's width, depth and height over the texture repeat.
  */
  function SimpleCurbFaces(st: LotSettings, m: Maths, centerX: real): (r: seq<Face>)
    ensures |r| == 5 && forall j :: 0 <= j < 5 ==> r[j].Quad?
  {
    var angle := DegreeToRadian(st.spotAngle);
    var box := Box(st, m.sin(angle), m.cos(angle), centerX);
    var up, perp, along := WorldUp, box.perpDir, box.lengthDir;
    var h := st.curbsHeight;
    var uW := m.Divide(box.curbWidth, st.curbsTextureRepeat);
    var uD := m.Divide(st.curbsDepth, st.curbsTextureRepeat);
    var uH := m.Divide(st.curbsHeight, st.curbsTextureRepeat);
    var fbl := Sub(Sub(box.center, Scale(perp, box.halfW)), Scale(along, box.halfD));
    var fbr := Sub(Add(box.center, Scale(perp, box.halfW)), Scale(along, box.halfD));
    var bbl := Add(Sub(box.center, Scale(perp, box.halfW)), Scale(along, box.halfD));
    var bbr := Add(Add(box.center, Scale(perp, box.halfW)), Scale(along, box.halfD));
    var ftl, ftr := Add(fbl, Scale(up, h)), Add(fbr, Scale(up, h));
    var btl, btr := Add(bbl, Scale(up, h)), Add(bbr, Scale(up, h));
    [FlatQuad(ftl, ftr, btr, btl, up, perp, Vec2(0.0, 0.0), Vec2(uW, 0.0), Vec2(uW, uD), Vec2(0.0, uD)),
     FlatQuad(fbl, fbr, ftr, ftl, Neg(along), up, Vec2(0.0, 0.0), Vec2(uW, 0.0), Vec2(uW, uH), Vec2(0.0, uH)),
     FlatQuad(bbr, bbl, btl, btr, along, up, Vec2(0.0, 0.0), Vec2(uW, 0.0), Vec2(uW, uH), Vec2(0.0, uH)),
     FlatQuad(bbl, fbl, ftl, btl, Neg(perp), up, Vec2(0.0, 0.0), Vec2(uD, 0.0), Vec2(uD, uH), Vec2(0.0, uH)),
     FlatQuad(fbr, bbr, btr, ftr, perp, up, Vec2(0.0, 0.0), Vec2(uD, 0.0), Vec2(uD, uH), Vec2(0.0, uH))]
  }

  // ----------------------------------------------------------- bevelled curb

  /**
    Point j of the bevelled profile, in (along the spot, up) coordinates: at
    t = j / S it runs up the front bevel for t up to 0.333, across the top
    up to 0.666, then down the back bevel, between the four anchors front
    bottom (-d/2, 0), front top (-d/4, h), back top (d/4, h) and back bottom
    (d/2, 0).
  */
  function ProfilePoint(st: LotSettings, j: int): Vec2
    requires st.curbsSegments > 0
  {
    ProfileAt(st.curbsDepth * 0.5, st.curbsHeight, j as real / st.curbsSegments as real)
  }

  /** The profile at fraction t, for half-depth `halfD` and height `h`. */
  function ProfileAt(halfD: real, h: real, t: real): Vec2 {
    var a0, a1 := Vec2(-halfD, 0.0), Vec2(-halfD * 0.5, h);
    var a2, a3 := Vec2(halfD * 0.5, h), Vec2(halfD, 0.0);
    if t <= 0.333 then Lerp2(a0, a1, t / 0.333)
    else if t <= 0.666 then Lerp2(a1, a2, (t - 0.333) / 0.333)
    else Lerp2(a2, a3, (t - 0.666) / 0.334)
  }

  /** The S + 1 points of the bevelled profile. */
  function Profile(st: LotSettings): (r: seq<Vec2>)
    requires st.curbsSegments > 0
    ensures |r| == st.curbsSegments + 1
    ensures forall j :: 0 <= j < |r| ==> r[j] == ProfilePoint(st, j)
  {
    seq(st.curbsSegments + 1, j => ProfilePoint(st, j))
  }

  /**
    The profile starts at the front bottom corner (-d/2, 0) and ends at the
    back bottom corner (d/2, 0), so the curb stands on the ground at both
    edges.
  */
  lemma ProfileEnds(st: LotSettings)
    requires st.curbsSegments > 0
    ensures var halfD := st.curbsDepth * 0.5;
            var p := Profile(st);
            p[0] == Vec2(-halfD, 0.0) && p[st.curbsSegments] == Vec2(halfD, 0.0)
  {
    var t := st.curbsSegments as real / st.curbsSegments as real;
    assert t == 1.0;
  }

  /**
    Every lerp fraction the profile uses lies in [0, 1], so each point lies
    on its anchor segment: within the curb's depth, between the ground and
    the curb's height.
  */
  lemma ProfileWithin(st: LotSettings, j: int)
    requires st.curbsSegments > 0 && 0 <= j <= st.curbsSegments
    requires st.curbsDepth >= 0.0 && st.curbsHeight >= 0.0
    ensures var p := ProfilePoint(st, j);
            && -st.curbsDepth * 0.5 <= p.x <= st.curbsDepth * 0.5
            && 0.0 <= p.y <= st.curbsHeight
  {
    FractionInUnit(j, st.curbsSegments);
    ProfileAtWithin(st.curbsDepth * 0.5, st.curbsHeight, j as real / st.curbsSegments as real);
  }

  /**
    For t in [0, 1] every lerp fraction lies in [0, 1], so the point lies on
    its anchor segment: the front bevel covers x in [-d/2, -d/4], the top
    [-d/4, d/4] and the back bevel [d/4, d/2], all between the ground and a
    non-negative h.
  */
  lemma ProfileAtWithin(halfD: real, h: real, t: real)
    requires halfD >= 0.0 && 0.0 <= t <= 1.0
    ensures var p := ProfileAt(halfD, h, t);
            && (t <= 0.333 ==> -halfD <= p.x <= -halfD * 0.5)
            && (0.333 < t <= 0.666 ==> -halfD * 0.5 <= p.x <= halfD * 0.5)
            && (0.666 < t ==> halfD * 0.5 <= p.x <= halfD)
            && (h >= 0.0 ==> 0.0 <= p.y <= h)
  {
    var a0, a1 := Vec2(-halfD, 0.0), Vec2(-halfD * 0.5, h);
    var a2, a3 := Vec2(halfD * 0.5, h), Vec2(halfD, 0.0);
    if t <= 0.333 {
      LerpWithin(a0, a1, t / 0.333);
    } else if t <= 0.666 {
      LerpWithin(a1, a2, (t - 0.333) / 0.333);
    } else {
      LerpWithin(a2, a3, (t - 0.666) / 0.334);
    }
  }

  /** The profile runs from the front to the back: its points never step back in x. */
  lemma ProfileFrontToBack(st: LotSettings, j: int)
    requires st.curbsSegments > 0 && 0 <= j < st.curbsSegments && st.curbsDepth >= 0.0
    ensures ProfilePoint(st, j).x <= ProfilePoint(st, j + 1).x
  {
    var n := st.curbsSegments as real;
    var t0, t1 := j as real / n, (j + 1) as real / n;
    assert t0 < t1 by {
      assert t1 - t0 == 1.0 / n;
    }
    FractionInUnit(j, st.curbsSegments);
    FractionInUnit(j + 1, st.curbsSegments);
    ProfileAtGrows(st.curbsDepth * 0.5, st.curbsHeight, t0, t1);
  }

  /** The profile's x grows with t: within a piece by its lerp, across pieces by their ranges. */
  lemma ProfileAtGrows(halfD: real, h: real, t0: real, t1: real)
    requires halfD >= 0.0 && 0.0 <= t0 <= t1 <= 1.0
    ensures ProfileAt(halfD, h, t0).x <= ProfileAt(halfD, h, t1).x
  {
    var a0, a1 := Vec2(-halfD, 0.0), Vec2(-halfD * 0.5, h);
    var a2, a3 := Vec2(halfD * 0.5, h), Vec2(halfD, 0.0);
    if t1 <= 0.333 {
      LerpStep(a0, a1, t0 / 0.333, t1 / 0.333);
    } else if 0.333 < t0 && t1 <= 0.666 {
      LerpStep(a1, a2, (t0 - 0.333) / 0.333, (t1 - 0.333) / 0.333);
    } else if 0.666 < t0 {
      LerpStep(a2, a3, (t0 - 0.666) / 0.334, (t1 - 0.666) / 0.334);
    } else {
      ProfileAtWithin(halfD, h, t0);
      ProfileAtWithin(halfD, h, t1);
    }
  }

  /** j / n lies in [0, 1] for 0 <= j <= n. */
  lemma FractionInUnit(j: int, n: int)
    requires 0 <= j <= n && n > 0
    ensures 0.0 <= j as real / n as real <= 1.0
  {
  }

  /** A lerp with fraction in [0, 1] lies between its two ends, coordinate by coordinate. */
  lemma LerpWithin(p: Vec2, q: Vec2, f: real)
    requires 0.0 <= f <= 1.0
    ensures var r := Lerp2(p, q, f);
            && (p.x <= q.x ==> p.x <= r.x <= q.x) && (q.x <= p.x ==> q.x <= r.x <= p.x)
            && (p.y <= q.y ==> p.y <= r.y <= q.y) && (q.y <= p.y ==> q.y <= r.y <= p.y)
  {
    var r := Lerp2(p, q, f);
    LerpBetween(p.x, q.x, f, r.x);
    LerpBetween(p.y, q.y, f, r.y);
  }

  /** One coordinate of `LerpWithin`. */
  lemma LerpBetween(a: real, b: real, f: real, c: real)
    requires 0.0 <= f <= 1.0 && c == a + (b - a) * f
    ensures a <= b ==> a <= c <= b
    ensures b <= a ==> b <= c <= a
  {
    if a <= b {
      MulNonNeg(b - a, f);
      MulNonNeg(b - a, 1.0 - f);
    } else {
      MulNonNeg(a - b, f);
      MulNonNeg(a - b, 1.0 - f);
    }
  }

  /** A lerp whose x grows from p to q grows in x with its fraction. */
  lemma LerpStep(p: Vec2, q: Vec2, f0: real, f1: real)
    requires p.x <= q.x && f0 <= f1
    ensures Lerp2(p, q, f0).x <= Lerp2(p, q, f1).x
  {
    MulNonNeg(q.x - p.x, f1 - f0);
  }

  /** The product of two non-negative reals is non-negative. */
  lemma MulNonNeg(x: real, y: real)
    requires x >= 0.0 && y >= 0.0
    ensures x * y >= 0.0
  {
  }

  /** The profile loop of `DrawBevelledCurb`: fills a new array of S + 1 points. */
  method ComputeProfile(st: LotSettings) returns (profile: array<Vec2>)
    requires st.curbsSegments > 0
    ensures fresh(profile) && profile[..] == Profile(st)
  {
    profile := new Vec2[st.curbsSegments + 1];
    for i := 0 to st.curbsSegments + 1
      invariant forall j :: 0 <= j < i ==> profile[j] == ProfilePoint(st, j)
    {
      var halfD := st.curbsDepth * 0.5;
      var h := st.curbsHeight;
      var t := i as real / st.curbsSegments as real;
      if t <= 0.333 {
        profile[i] := Lerp2(Vec2(-halfD, 0.0), Vec2(-halfD * 0.5, h), t / 0.333);
      } else if t <= 0.666 {
        profile[i] := Lerp2(Vec2(-halfD * 0.5, h), Vec2(halfD * 0.5, h), (t - 0.333) / 0.333);
      } else {
        profile[i] := Lerp2(Vec2(halfD * 0.5, h), Vec2(halfD, 0.0), (t - 0.666) / 0.334);
      }
    }
  }

  /** The bevelled curb's angle in radians, written as degrees times π over 180. */
  function BevelAngle(st: LotSettings): real {
    st.spotAngle * PI / 180.0
  }

  /** The bevelled curb of the spot whose width centre is at `centerX`. */
  function BevelBox(st: LotSettings, m: Maths, centerX: real): CurbBox {
    Box(st, m.sin(BevelAngle(st)), m.cos(BevelAngle(st)), centerX)
  }

  /**
    Body quad j of a bevelled curb: across the curb between profile points j
    and j + 1, facing out of the profile (straight up where the segment is
    flat), with v following the profile along the spot.
  */
  function BodyQuad(st: LotSettings, m: Maths, box: CurbBox, j: int): (r: Face)
    requires st.curbsSegments > 0
    ensures r.Quad?
  {
    var p1, p2 := ProfilePoint(st, j), ProfilePoint(st, j + 1);
    var dir := m.normal2(Sub2(p2, p1));
    var normal := if Abs(p1.y - p2.y) < 0.01 then WorldUp
                  else m.normal(Add(Scale(Neg(box.lengthDir), dir.y), Scale(WorldUp, dir.x)));
    var uW := m.Divide(box.curbWidth, st.curbsTextureRepeat);
    var v1 := m.Divide(p1.x + box.halfD, st.curbsTextureRepeat);
    var v2 := m.Divide(p2.x + box.halfD, st.curbsTextureRepeat);
    FlatQuad(box.At(-1.0, p1), box.At(1.0, p1), box.At(1.0, p2), box.At(-1.0, p2), normal, box.perpDir,
             Vec2(0.0, v1), Vec2(uW, v1), Vec2(uW, v2), Vec2(0.0, v2))
  }

  /** The texture coordinate of profile point p on an end cap. */
  function CapUV(st: LotSettings, m: Maths, box: CurbBox, p: Vec2): Vec2 {
    Vec2(m.Divide(p.x + box.halfD, st.curbsTextureRepeat), m.Divide(p.y, st.curbsTextureRepeat))
  }

  /** The texture coordinate of an end cap's centre. */
  function CapCenterUV(st: LotSettings, m: Maths): Vec2 {
    var k := m.Divide(st.curbsDepth, st.curbsTextureRepeat);
    Vec2(0.5 * k, 0.0 * k)
  }

  /** The left end cap's triangle for segment j: the end's centre and profile points j and j + 1, facing left. */
  function CapLeft(st: LotSettings, m: Maths, box: CurbBox, j: int): (r: Face)
    requires st.curbsSegments > 0
    ensures r.Tri?
  {
    var p1, p2 := ProfilePoint(st, j), ProfilePoint(st, j + 1);
    Tri(Sub(box.center, Scale(box.perpDir, box.halfW)), box.At(-1.0, p1), box.At(-1.0, p2), Neg(box.perpDir), box.lengthDir,
        CapCenterUV(st, m), CapUV(st, m, box, p1), CapUV(st, m, box, p2))
  }

  /** The right end cap's triangle for segment j, wound the other way and facing right. */
  function CapRight(st: LotSettings, m: Maths, box: CurbBox, j: int): (r: Face)
    requires st.curbsSegments > 0
    ensures r.Tri?
  {
    var p1, p2 := ProfilePoint(st, j), ProfilePoint(st, j + 1);
    Tri(Add(box.center, Scale(box.perpDir, box.halfW)), box.At(1.0, p2), box.At(1.0, p1), box.perpDir, box.lengthDir,
        CapCenterUV(st, m), CapUV(st, m, box, p2), CapUV(st, m, box, p1))
  }

  /** The first k segments' cap triangles, left then right for each. */
  function CapFaces(st: LotSettings, m: Maths, box: CurbBox, k: nat): (r: seq<Face>)
    requires st.curbsSegments > 0
    ensures |r| == 2 * k
  {
    if k == 0 then [] else CapFaces(st, m, box, k - 1) + [CapLeft(st, m, box, k - 1), CapRight(st, m, box, k - 1)]
  }

  /** Segment j's caps sit at slots 2j and 2j + 1 of the cap triangles. */
  lemma {:induction false} CapSlots(st: LotSettings, m: Maths, box: CurbBox, k: nat, j: nat)
    requires st.curbsSegments > 0 && j < k
    ensures CapFaces(st, m, box, k)[2 * j] == CapLeft(st, m, box, j)
    ensures CapFaces(st, m, box, k)[2 * j + 1] == CapRight(st, m, box, j)
  {
    var prev := CapFaces(st, m, box, k - 1);
    var pair := [CapLeft(st, m, box, k - 1), CapRight(st, m, box, k - 1)];
    assert CapFaces(st, m, box, k) == prev + pair;
    if j < k - 1 {
      CapSlots(st, m, box, k - 1, j);
      assert prev[2 * j] == CapLeft(st, m, box, j);
    } else {
      assert 2 * j == |prev|;
    }
  }

  /** The cap triangles are all triangles. */
  lemma {:induction false} CapsAreTriangles(st: LotSettings, m: Maths, box: CurbBox, k: nat)
    requires st.curbsSegments > 0
    ensures forall t :: 0 <= t < 2 * k ==> CapFaces(st, m, box, k)[t].Tri?
  {
    if k > 0 {
      CapsAreTriangles(st, m, box, k - 1);
    }
  }

  /** The body quads of a bevelled curb, segment by segment. */
  function BodyQuads(st: LotSettings, m: Maths, box: CurbBox): (r: seq<Face>)
    requires st.curbsSegments > 0
    ensures |r| == st.curbsSegments
    ensures forall t :: 0 <= t < |r| ==> r[t] == BodyQuad(st, m, box, t)
  {
    seq(st.curbsSegments, t => BodyQuad(st, m, box, t))
  }

  /** `DrawBevelledCurb`: the S body quads, then for each segment its left and right cap triangles. */
  function BevelledCurbFaces(st: LotSettings, m: Maths, centerX: real): (r: seq<Face>)
    requires st.curbsSegments > 0
    ensures |r| == 3 * st.curbsSegments
  {
    var box := BevelBox(st, m, centerX);
    BodyQuads(st, m, box) + CapFaces(st, m, box, st.curbsSegments)
  }

  /** A bevelled curb takes 4 vertices and 6 indices per body quad and 3 and 3 per cap triangle. */
  lemma BevelledCounts(st: LotSettings, m: Maths, centerX: real)
    requires st.curbsSegments > 0
    ensures VertexCount(BevelledCurbFaces(st, m, centerX)) == st.curbsSegments * 4 + st.curbsSegments * 3 * 2
    ensures IndexCount(BevelledCurbFaces(st, m, centerX)) == st.curbsSegments * 6 + st.curbsSegments * 3 * 2
  {
    var box := BevelBox(st, m, centerX);
    CapsAreTriangles(st, m, box, st.curbsSegments);
    QuadCounts(BodyQuads(st, m, box));
    TriCounts(CapFaces(st, m, box, st.curbsSegments));
    CountsAppend(BodyQuads(st, m, box), CapFaces(st, m, box, st.curbsSegments));
  }

  // ------------------------------------------------------------------- build

  /** The faces of spot i's curb: a box or a bevelled bar, by the segment count. */
  function CurbFaces(st: LotSettings, m: Maths, i: int): seq<Face> {
    if Bevelled(st) then BevelledCurbFaces(st, m, CurbCenterX(st, m, i)) else SimpleCurbFaces(st, m, CurbCenterX(st, m, i))
  }

  /** One curb per spot, in spot order. */
  function CurbGroups(st: LotSettings, m: Maths): (r: seq<seq<Face>>)
    requires st.spotCount >= 0
    ensures |r| == st.spotCount && forall i :: 0 <= i < |r| ==> r[i] == CurbFaces(st, m, i)
  {
    seq(st.spotCount, i => CurbFaces(st, m, i))
  }

  /** The faces `BuildCurbs` writes, curb after curb. */
  function CurbsFaces(st: LotSettings, m: Maths): seq<Face>
    requires st.spotCount >= 0
  {
    Flatten(CurbGroups(st, m))
  }

  /** Every curb takes exactly the vertices and indices declared for one curb. */
  lemma CurbCounts(st: LotSettings, m: Maths, i: int)
    ensures VertexCount(CurbFaces(st, m, i)) == VerticesPerCurb(st)
    ensures IndexCount(CurbFaces(st, m, i)) == IndicesPerCurb(st)
  {
    if Bevelled(st) {
      BevelledCounts(st, m, CurbCenterX(st, m, i));
    } else {
      QuadCounts(SimpleCurbFaces(st, m, CurbCenterX(st, m, i)));
    }
  }

  /** Groups that each take v vertices and x indices take v and x times their number together. */
  lemma {:induction false} FlattenCounts(groups: seq<seq<Face>>, v: nat, x: nat)
    requires forall g :: 0 <= g < |groups| ==> VertexCount(groups[g]) == v && IndexCount(groups[g]) == x
    ensures VertexCount(Flatten(groups)) == v * |groups| && IndexCount(Flatten(groups)) == x * |groups|
  {
    if |groups| > 0 {
      var init := groups[..|groups| - 1];
      FlattenCounts(init, v, x);
      CountsAppend(Flatten(init), groups[|groups| - 1]);
      MoreTimes(v, |init|);
      MoreTimes(x, |init|);
    }
  }

  /** One more group adds one more share. */
  lemma MoreTimes(v: nat, n: nat)
    ensures v * (n + 1) == v * n + v
  {
  }

  /** The curbs take exactly the per-curb totals times the spot count, the totals `BuildCurbs` declares. */
  lemma CurbsCapacity(st: LotSettings, m: Maths)
    requires st.spotCount >= 0
    ensures VertexCount(CurbsFaces(st, m)) == VerticesPerCurb(st) * st.spotCount
    ensures IndexCount(CurbsFaces(st, m)) == IndicesPerCurb(st) * st.spotCount
  {
    var groups := CurbGroups(st, m);
    forall g | 0 <= g < |groups|
      ensures VertexCount(groups[g]) == VerticesPerCurb(st) && IndexCount(groups[g]) == IndicesPerCurb(st)
    {
      CurbCounts(st, m, g);
    }
    FlattenCounts(groups, VerticesPerCurb(st), IndicesPerCurb(st));
  }

  /** The curbs entry: exactly the curbs' faces, in the curbs' material or the default one, with collision. */
  function CurbsEntry(st: LotSettings, m: Maths): SubMesh
    requires st.spotCount >= 0
  {
    Filled(CurbsFaces(st, m), st.curbsMaterial.GetOr(DefaultParkingMaterial), true)
  }

  /**
    `BuildCurbs`: nothing without curbs or spots; otherwise declares the
    curbs entry with the per-curb totals times the spot count, with
    collision, and fills it exactly with one curb per spot.
  */
  method BuildCurbs(builder: MeshBuilder, st: LotSettings, m: Maths)
    requires builder.Valid()
    modifies builder
    ensures builder.Valid()
    ensures builder.subMeshes == if DrawsCurbs(st) then old(builder.subMeshes)[CurbsKey := CurbsEntry(st, m)] else old(builder.subMeshes)
    ensures builder.order == if !DrawsCurbs(st) || CurbsKey in old(builder.subMeshes) then old(builder.order)
                             else old(builder.order) + [CurbsKey]
    ensures builder.isDirty == old(builder.isDirty) && builder.castShadows == old(builder.castShadows)
    ensures builder.meshes == old(builder.meshes) && builder.collider == old(builder.collider)
  {
    if !st.hasCurbs || st.spotCount <= 0 {
      return;
    }
    var material := st.curbsMaterial.GetOr(DefaultParkingMaterial);
    var vertsPerCurb: nat;
    var indicesPerCurb: nat;
    if st.curbsSegments <= 1 {
      vertsPerCurb := 20;
      indicesPerCurb := 30;
    } else {
      vertsPerCurb := st.curbsSegments * 4 + st.curbsSegments * 3 * 2;
      indicesPerCurb := st.curbsSegments * 6 + st.curbsSegments * 3 * 2;
    }
    assert vertsPerCurb == VerticesPerCurb(st) && indicesPerCurb == IndicesPerCurb(st);
    ghost var faces := CurbsFaces(st, m);
    CurbsCapacity(st, m);
    builder.InitSubmesh(CurbsKey, vertsPerCurb * st.spotCount, indicesPerCurb * st.spotCount, material, true);
    ghost var table := builder.subMeshes;
    ghost var stages := StagesOf(faces, material, true);
    StagesEnds(stages, faces, material, true);
    Declared(table, CurbsKey, faces, material, true);
    assert stages[0] == Partial(faces, 0, material, true);
    EmitCurbs(builder, st, m, table, builder.order, stages, material);
    FinishEntry(table, builder.order, CurbsKey, faces, material, true);
    UpdateTwice(old(builder.subMeshes), CurbsKey, table[CurbsKey], stages[|faces|]);
  }

  /** The spot loop of `BuildCurbs`: each spot's curb, centred on the middle of the spot's width. */
  method EmitCurbs(builder: MeshBuilder, st: LotSettings, m: Maths, ghost table: map<Key, SubMesh>,
                   ghost order: seq<Key>, ghost stages: seq<SubMesh>, ghost material: Material)
    requires st.spotCount >= 0 && CurbsKey in table && builder.order == order
    requires Stages(stages, CurbsFaces(st, m), material, true)
    requires builder.subMeshes == table[CurbsKey := stages[0]]
    modifies builder
    ensures builder.subMeshes == table[CurbsKey := stages[|CurbsFaces(st, m)|]]
    ensures builder.order == order && builder.isDirty == old(builder.isDirty)
    ensures builder.castShadows == old(builder.castShadows)
    ensures builder.meshes == old(builder.meshes) && builder.collider == old(builder.collider)
  {
    ghost var groups := CurbGroups(st, m);
    assert groups[..0] == [];
    for i := 0 to st.spotCount
      invariant |Flatten(groups[..i])| < |stages|
      invariant builder.subMeshes == table[CurbsKey := stages[|Flatten(groups[..i])|]]
      invariant builder.order == order && builder.isDirty == old(builder.isDirty)
      invariant builder.castShadows == old(builder.castShadows)
      invariant builder.meshes == old(builder.meshes) && builder.collider == old(builder.collider)
    {
      var spacing := Spacing(st, m);
      var xCenter := i as real * spacing + st.spotWidth * 0.5;
      CenteredAt(st, m, i, spacing, xCenter);
      DrawCurb(builder, st, m, xCenter, i, table, order, groups, stages, material);
    }
    assert groups[..st.spotCount] == groups;
  }

  /**
    Spot i's curb around its centre: the simple box for one segment or fewer
    and the bevelled profile otherwise.
  */
  method DrawCurb(builder: MeshBuilder, st: LotSettings, m: Maths, centerX: real, ghost i: nat,
                  ghost table: map<Key, SubMesh>, ghost order: seq<Key>, ghost groups: seq<seq<Face>>,
                  ghost stages: seq<SubMesh>, ghost material: Material)
    requires CurbsKey in table && builder.order == order && Stages(stages, Flatten(groups), material, true)
    requires i < |groups| && groups[i] == CurbFaces(st, m, i) && centerX == CurbCenterX(st, m, i)
    requires |Flatten(groups[..i])| < |stages| && builder.subMeshes == table[CurbsKey := stages[|Flatten(groups[..i])|]]
    modifies builder
    ensures |Flatten(groups[..i + 1])| < |stages|
    ensures builder.subMeshes == table[CurbsKey := stages[|Flatten(groups[..i + 1])|]]
    ensures builder.order == order && builder.isDirty == old(builder.isDirty)
    ensures builder.castShadows == old(builder.castShadows)
    ensures builder.meshes == old(builder.meshes) && builder.collider == old(builder.collider)
  {
    FlattenGroup(groups, i);
    ghost var w := |Flatten(groups[..i])|;
    if st.curbsSegments <= 1 {
      DrawSimpleCurb(builder, st, m, centerX, i, table, order, groups, stages, w, material);
    } else {
      DrawBevelledCurb(builder, st, m, centerX, i, table, order, groups, stages, w, material);
    }
  }

  /** The x the loop computes for spot i is that spot's curb centre. */
  lemma CenteredAt(st: LotSettings, m: Maths, i: int, spacing: real, xCenter: real)
    requires spacing == Spacing(st, m) && xCenter == i as real * spacing + st.spotWidth * 0.5
    ensures xCenter == CurbCenterX(st, m, i)
  {
  }

  /** `DrawSimpleCurb`: the box's five faces. */
  method DrawSimpleCurb(builder: MeshBuilder, st: LotSettings, m: Maths, centerX: real, ghost i: nat,
                        ghost table: map<Key, SubMesh>, ghost order: seq<Key>, ghost groups: seq<seq<Face>>,
                        ghost stages: seq<SubMesh>, ghost w: nat, ghost material: Material)
    requires CurbsKey in table && builder.order == order && Stages(stages, Flatten(groups), material, true)
    requires i < |groups| && groups[i] == SimpleCurbFaces(st, m, centerX)
    requires w == |Flatten(groups[..i])| && w + 5 < |stages| && builder.subMeshes == table[CurbsKey := stages[w]]
    modifies builder
    ensures builder.subMeshes == table[CurbsKey := stages[w + |groups[i]|]]
    ensures builder.order == order && builder.isDirty == old(builder.isDirty)
    ensures builder.castShadows == old(builder.castShadows)
    ensures builder.meshes == old(builder.meshes) && builder.collider == old(builder.collider)
  {
    var up := WorldUp;
    var angleRad := DegreeToRadian(st.spotAngle);
    var box := Box(st, m.sin(angleRad), m.cos(angleRad), centerX);
    var perpDir, lengthDir := box.perpDir, box.lengthDir;
    var h := st.curbsHeight;
    var uW := m.Divide(box.curbWidth, st.curbsTextureRepeat);
    var uD := m.Divide(st.curbsDepth, st.curbsTextureRepeat);
    var uH := m.Divide(st.curbsHeight, st.curbsTextureRepeat);
    var fbl := Sub(Sub(box.center, Scale(perpDir, box.halfW)), Scale(lengthDir, box.halfD));
    var fbr := Sub(Add(box.center, Scale(perpDir, box.halfW)), Scale(lengthDir, box.halfD));
    var ftl, ftr := Add(fbl, Scale(up, h)), Add(fbr, Scale(up, h));
    var bbl := Add(Sub(box.center, Scale(perpDir, box.halfW)), Scale(lengthDir, box.halfD));
    var bbr := Add(Add(box.center, Scale(perpDir, box.halfW)), Scale(lengthDir, box.halfD));
    var btl, btr := Add(bbl, Scale(up, h)), Add(bbr, Scale(up, h));
    var top := FlatQuad(ftl, ftr, btr, btl, up, perpDir, Vec2(0.0, 0.0), Vec2(uW, 0.0), Vec2(uW, uD), Vec2(0.0, uD));
    EmitGrouped(builder, CurbsKey, table, order, groups, stages, i, w, 0, top, material, true);
    var front := FlatQuad(fbl, fbr, ftr, ftl, Neg(lengthDir), up, Vec2(0.0, 0.0), Vec2(uW, 0.0), Vec2(uW, uH), Vec2(0.0, uH));
    EmitGrouped(builder, CurbsKey, table, order, groups, stages, i, w, 1, front, material, true);
    var back := FlatQuad(bbr, bbl, btl, btr, lengthDir, up, Vec2(0.0, 0.0), Vec2(uW, 0.0), Vec2(uW, uH), Vec2(0.0, uH));
    EmitGrouped(builder, CurbsKey, table, order, groups, stages, i, w, 2, back, material, true);
    var left := FlatQuad(bbl, fbl, ftl, btl, Neg(perpDir), up, Vec2(0.0, 0.0), Vec2(uD, 0.0), Vec2(uD, uH), Vec2(0.0, uH));
    EmitGrouped(builder, CurbsKey, table, order, groups, stages, i, w, 3, left, material, true);
    var right := FlatQuad(fbr, bbr, btr, ftr, perpDir, up, Vec2(0.0, 0.0), Vec2(uD, 0.0), Vec2(uD, uH), Vec2(0.0, uH));
    EmitGrouped(builder, CurbsKey, table, order, groups, stages, i, w, 4, right, material, true);
  }

  /**
    `DrawBevelledCurb`: computes the profile, then writes the body quad of
    every segment, then the two cap triangles of every segment.
  */
  method DrawBevelledCurb(builder: MeshBuilder, st: LotSettings, m: Maths, centerX: real, ghost i: nat,
                          ghost table: map<Key, SubMesh>, ghost order: seq<Key>, ghost groups: seq<seq<Face>>,
                          ghost stages: seq<SubMesh>, ghost w: nat, ghost material: Material)
    requires st.curbsSegments > 1
    requires CurbsKey in table && builder.order == order && Stages(stages, Flatten(groups), material, true)
    requires i < |groups| && groups[i] == BevelledCurbFaces(st, m, centerX)
    requires w == |Flatten(groups[..i])| && w + 3 * st.curbsSegments < |stages|
    requires builder.subMeshes == table[CurbsKey := stages[w]]
    modifies builder
    ensures builder.subMeshes == table[CurbsKey := stages[w + |groups[i]|]]
    ensures builder.order == order && builder.isDirty == old(builder.isDirty)
    ensures builder.castShadows == old(builder.castShadows)
    ensures builder.meshes == old(builder.meshes) && builder.collider == old(builder.collider)
  {
    var box := BevelBox(st, m, centerX);
    var profile := ComputeProfile(st);
    WriteBodies(builder, st, m, centerX, box, profile, i, table, order, groups, stages, w, material);
    WriteCaps(builder, st, m, centerX, box, profile, i, table, order, groups, stages, w, material);
  }

  /** The body loop of `DrawBevelledCurb`: one quad per profile segment. */
  method WriteBodies(builder: MeshBuilder, st: LotSettings, m: Maths, centerX: real, box: CurbBox, profile: array<Vec2>, ghost i: nat,
                     ghost table: map<Key, SubMesh>, ghost order: seq<Key>, ghost groups: seq<seq<Face>>,
                     ghost stages: seq<SubMesh>, ghost w: nat, ghost material: Material)
    requires st.curbsSegments > 1 && box == BevelBox(st, m, centerX) && profile[..] == Profile(st)
    requires CurbsKey in table && builder.order == order && Stages(stages, Flatten(groups), material, true)
    requires i < |groups| && groups[i] == BevelledCurbFaces(st, m, centerX)
    requires w == |Flatten(groups[..i])| && w + 3 * st.curbsSegments < |stages|
    requires builder.subMeshes == table[CurbsKey := stages[w]]
    modifies builder
    ensures builder.subMeshes == table[CurbsKey := stages[w + st.curbsSegments]]
    ensures builder.order == order && builder.isDirty == old(builder.isDirty)
    ensures builder.castShadows == old(builder.castShadows)
    ensures builder.meshes == old(builder.meshes) && builder.collider == old(builder.collider)
  {
    for j := 0 to st.curbsSegments
      invariant builder.subMeshes == table[CurbsKey := stages[w + j]]
      invariant builder.order == order && builder.isDirty == old(builder.isDirty)
      invariant builder.castShadows == old(builder.castShadows)
      invariant builder.meshes == old(builder.meshes) && builder.collider == old(builder.collider)
    {
      BevelledSlots(st, m, centerX, j);
      AddBodySegment(builder, st, m, box, profile[j], profile[j + 1], i, j, table, order, groups, stages, w, material);
    }
  }

  /** The cap loop of `DrawBevelledCurb`: a left and a right triangle per profile segment. */
  method WriteCaps(builder: MeshBuilder, st: LotSettings, m: Maths, centerX: real, box: CurbBox, profile: array<Vec2>, ghost i: nat,
                   ghost table: map<Key, SubMesh>, ghost order: seq<Key>, ghost groups: seq<seq<Face>>,
                   ghost stages: seq<SubMesh>, ghost w: nat, ghost material: Material)
    requires st.curbsSegments > 1 && box == BevelBox(st, m, centerX) && profile[..] == Profile(st)
    requires CurbsKey in table && builder.order == order && Stages(stages, Flatten(groups), material, true)
    requires i < |groups| && groups[i] == BevelledCurbFaces(st, m, centerX)
    requires w == |Flatten(groups[..i])| && w + 3 * st.curbsSegments < |stages|
    requires builder.subMeshes == table[CurbsKey := stages[w + st.curbsSegments]]
    modifies builder
    ensures builder.subMeshes == table[CurbsKey := stages[w + 3 * st.curbsSegments]]
    ensures builder.order == order && builder.isDirty == old(builder.isDirty)
    ensures builder.castShadows == old(builder.castShadows)
    ensures builder.meshes == old(builder.meshes) && builder.collider == old(builder.collider)
  {
    for j := 0 to st.curbsSegments
      invariant builder.subMeshes == table[CurbsKey := stages[w + st.curbsSegments + 2 * j]]
      invariant builder.order == order && builder.isDirty == old(builder.isDirty)
      invariant builder.castShadows == old(builder.castShadows)
      invariant builder.meshes == old(builder.meshes) && builder.collider == old(builder.collider)
    {
      BevelledSlots(st, m, centerX, j);
      assert profile[j] == ProfilePoint(st, j) && profile[j + 1] == ProfilePoint(st, j + 1);
      AddCapSegment(builder, st, m, box, profile[j], profile[j + 1], i, j, table, order, groups, stages, w, material);
    }
  }

  /** Slot j of a bevelled curb is body quad j, slots S + 2j and S + 2j + 1 are segment j's caps. */
  lemma BevelledSlots(st: LotSettings, m: Maths, centerX: real, j: int)
    requires 0 <= j < st.curbsSegments
    ensures var faces, box := BevelledCurbFaces(st, m, centerX), BevelBox(st, m, centerX);
            && faces[j] == BodyQuad(st, m, box, j)
            && faces[st.curbsSegments + 2 * j] == CapLeft(st, m, box, j)
            && faces[st.curbsSegments + 2 * j + 1] == CapRight(st, m, box, j)
  {
    CapSlots(st, m, BevelBox(st, m, centerX), st.curbsSegments, j);
  }

  /** The body quad of segment j, between profile points `p1` and `p2`. */
  method AddBodySegment(builder: MeshBuilder, st: LotSettings, m: Maths, box: CurbBox, p1: Vec2, p2: Vec2, ghost i: nat, ghost j: nat,
                        ghost table: map<Key, SubMesh>, ghost order: seq<Key>, ghost groups: seq<seq<Face>>,
                        ghost stages: seq<SubMesh>, ghost w: nat, ghost material: Material)
    requires st.curbsSegments > 0 && p1 == ProfilePoint(st, j) && p2 == ProfilePoint(st, j + 1)
    requires CurbsKey in table && builder.order == order && Stages(stages, Flatten(groups), material, true)
    requires i < |groups| && j < |groups[i]| && groups[i][j] == BodyQuad(st, m, box, j)
    requires w == |Flatten(groups[..i])| && w + j < |stages| && builder.subMeshes == table[CurbsKey := stages[w + j]]
    modifies builder
    ensures w + j + 1 < |stages| && builder.subMeshes == table[CurbsKey := stages[w + j + 1]]
    ensures builder.order == order && builder.isDirty == old(builder.isDirty)
    ensures builder.castShadows == old(builder.castShadows)
    ensures builder.meshes == old(builder.meshes) && builder.collider == old(builder.collider)
  {
    var up := WorldUp;
    var dir := m.normal2(Sub2(p2, p1));
    var normal := m.normal(Add(Scale(Neg(box.lengthDir), dir.y), Scale(up, dir.x)));
    if Abs(p1.y - p2.y) < 0.01 {
      normal := up;
    }
    var uW := m.Divide(box.curbWidth, st.curbsTextureRepeat);
    var v1 := m.Divide(p1.x + box.halfD, st.curbsTextureRepeat);
    var v2 := m.Divide(p2.x + box.halfD, st.curbsTextureRepeat);
    var quad := FlatQuad(box.At(-1.0, p1), box.At(1.0, p1), box.At(1.0, p2), box.At(-1.0, p2), normal, box.perpDir,
                         Vec2(0.0, v1), Vec2(uW, v1), Vec2(uW, v2), Vec2(0.0, v2));
    EmitGrouped(builder, CurbsKey, table, order, groups, stages, i, w, j, quad, material, true);
  }

  /** The left then the right cap triangle of segment j, between profile points `p1` and `p2`. */
  method AddCapSegment(builder: MeshBuilder, st: LotSettings, m: Maths, box: CurbBox, p1: Vec2, p2: Vec2, ghost i: nat, ghost j: nat,
                       ghost table: map<Key, SubMesh>, ghost order: seq<Key>, ghost groups: seq<seq<Face>>,
                       ghost stages: seq<SubMesh>, ghost w: nat, ghost material: Material)
    requires st.curbsSegments > 0 && p1 == ProfilePoint(st, j) && p2 == ProfilePoint(st, j + 1)
    requires CurbsKey in table && builder.order == order && Stages(stages, Flatten(groups), material, true)
    requires i < |groups| && st.curbsSegments + 2 * j + 1 < |groups[i]|
    requires groups[i][st.curbsSegments + 2 * j] == CapLeft(st, m, box, j)
    requires groups[i][st.curbsSegments + 2 * j + 1] == CapRight(st, m, box, j)
    requires w == |Flatten(groups[..i])| && w + st.curbsSegments + 2 * j < |stages|
    requires builder.subMeshes == table[CurbsKey := stages[w + st.curbsSegments + 2 * j]]
    modifies builder
    ensures w + st.curbsSegments + 2 * j + 2 < |stages| && builder.subMeshes == table[CurbsKey := stages[w + st.curbsSegments + 2 * j + 2]]
    ensures builder.order == order && builder.isDirty == old(builder.isDirty)
    ensures builder.castShadows == old(builder.castShadows)
    ensures builder.meshes == old(builder.meshes) && builder.collider == old(builder.collider)
  {
    var t := st.curbsSegments + 2 * j;
    var centerL := Sub(box.center, Scale(box.perpDir, box.halfW));
    var centerR := Add(box.center, Scale(box.perpDir, box.halfW));
    var depthUV := m.Divide(st.curbsDepth, st.curbsTextureRepeat);
    var uvC := Vec2(0.5 * depthUV, 0.0 * depthUV);
    var uv1 := Vec2(m.Divide(p1.x + box.halfD, st.curbsTextureRepeat), m.Divide(p1.y, st.curbsTextureRepeat));
    var uv2 := Vec2(m.Divide(p2.x + box.halfD, st.curbsTextureRepeat), m.Divide(p2.y, st.curbsTextureRepeat));
    var left := Tri(centerL, box.At(-1.0, p1), box.At(-1.0, p2), Neg(box.perpDir), box.lengthDir, uvC, uv1, uv2);
    EmitGrouped(builder, CurbsKey, table, order, groups, stages, i, w, t, left, material, true);
    var right := Tri(centerR, box.At(1.0, p2), box.At(1.0, p1), box.perpDir, box.lengthDir, uvC, uv2, uv1);
    EmitGrouped(builder, CurbsKey, table, order, groups, stages, i, w, t + 1, right, material, true);
  }
}
