/**
  The parking lot's settings and the spacing of its spots. The lot lays out
  `spotCount` spots side by side along its local x axis; a spot is
  `spotWidth` wide and `spotLength` long and leans by `spotAngle` degrees.
  Leaning spots are spread further apart, but never by more than the width
  over the angle threshold.
*/
module ParkingLot {
  import opened Wrappers
  import opened Geometry
  import opened Meshes

  /** The line caps: whether the first line (before the first spot) and the last one (after the last spot) are drawn. */
  datatype LineCaps = LineCaps(start: bool, end: bool)

  /** Both caps, the default. */
  const BothCaps := LineCaps(true, true)

  /** The default material of the lines and the curbs. */
  const DefaultParkingMaterial := Material("materials/dev/reflectivity_90.vmat")

  /** The lot's world axes: Vector3.Up and Vector3.Forward. */
  const WorldUp := Vec3(0.0, 0.0, 1.0)
  const WorldForward := Vec3(1.0, 0.0, 0.0)

  /**
    The lot's settings. The editor ranges on the counts, sizes and angles are
    slider bounds only; the two texture repeats are clamped by their setters.
  */
  datatype LotSettings = LotSettings(
    spotCount: int,
    spotLength: real,
    spotWidth: real,
    spotAngle: real,
    spotAngleThreshold: real,
    linesMaterial: Option<Material>,
    linesCap: LineCaps,
    linesWidth: real,
    linesOffset: real,
    linesTextureRepeat: real,
    hasCurbs: bool,
    curbsMaterial: Option<Material>,
    curbsSegments: int,
    curbsFillRatio: real,
    curbsHeight: real,
    curbsDepth: real,
    curbsOffset: real,
    curbsTextureRepeat: real)
  {
    /** What the setters keep: both texture repeats are at least 1. */
    predicate Valid() {
      linesTextureRepeat >= 1.0 && curbsTextureRepeat >= 1.0
    }

    /** The lines' texture repeat setter: the value clamped to [1, 100000]. */
    function WithLinesTextureRepeat(value: real): (r: LotSettings)
      ensures 1.0 <= r.linesTextureRepeat <= 100000.0
      ensures 1.0 <= value <= 100000.0 ==> r.linesTextureRepeat == value
      ensures r == this.(linesTextureRepeat := r.linesTextureRepeat)
      ensures Valid() ==> r.Valid()
    {
      this.(linesTextureRepeat := Clamp(value, 1.0, 100000.0))
    }

    /** The curbs' texture repeat setter: the value clamped to [1, 100000]. */
    function WithCurbsTextureRepeat(value: real): (r: LotSettings)
      ensures 1.0 <= r.curbsTextureRepeat <= 100000.0
      ensures 1.0 <= value <= 100000.0 ==> r.curbsTextureRepeat == value
      ensures r == this.(curbsTextureRepeat := r.curbsTextureRepeat)
      ensures Valid() ==> r.Valid()
    {
      this.(curbsTextureRepeat := Clamp(value, 1.0, 100000.0))
    }
  }

  /**
    A new lot: 10 spots 250 long and 150 wide, square to the row, threshold
    0.5; lines 5 wide, 0.1 above the ground, repeat 10, with both caps; curbs
    off, otherwise 3 segments, 0.667 of the width, 8 high, 12 deep, 6 in from
    the back, repeat 10.
  */
  const DefaultLot := LotSettings(10, 250.0, 150.0, 0.0, 0.5, None, BothCaps, 5.0, 0.1, 10.0,
                                  false, None, 3, 0.667, 8.0, 12.0, 6.0, 10.0)

  /** A new lot satisfies the setters' invariant. */
  lemma DefaultLotValid()
    ensures DefaultLot.Valid() && DefaultLot.spotCount > 0 && DefaultLot.linesCap == BothCaps
  {
  }

  /** The divisor of `CalculateSpacing`: the cosine of the spot angle, but no less than the threshold. */
  function SpacingDivisor(st: LotSettings, m: Maths): (r: real)
    ensures st.spotAngleThreshold <= r
  {
    Max(m.cos(DegreeToRadian(st.spotAngle)), st.spotAngleThreshold)
  }

  /** `CalculateSpacing`: the distance from one spot's origin to the next, the width over the divisor. */
  function Spacing(st: LotSettings, m: Maths): (r: real)
    ensures st.spotAngleThreshold > 0.0 ==> r == st.spotWidth / SpacingDivisor(st, m)
  {
    m.Divide(st.spotWidth, SpacingDivisor(st, m))
  }

  /**
    With the threshold in its editor range [0.5, 1], the divisor lies in
    [threshold, 1], so the spacing is defined and lies between the width and
    the width over the threshold; square spots are exactly their width apart.
  */
  lemma SpacingBounds(st: LotSettings, m: Maths)
    requires m.Sane() && 0.5 <= st.spotAngleThreshold <= 1.0 && st.spotWidth >= 0.0
    ensures 0.5 <= st.spotAngleThreshold <= SpacingDivisor(st, m) <= 1.0
    ensures Spacing(st, m) == st.spotWidth / SpacingDivisor(st, m)
    ensures st.spotWidth <= Spacing(st, m) <= st.spotWidth / st.spotAngleThreshold <= 2.0 * st.spotWidth
    ensures st.spotAngle == 0.0 ==> Spacing(st, m) == st.spotWidth
  {
    var d := SpacingDivisor(st, m);
    var t := st.spotAngleThreshold;
    var w := st.spotWidth;
    assert m.cos(DegreeToRadian(st.spotAngle)) <= 1.0;
    QuotientBelow(w, d, 1.0);
    QuotientBelow(w, t, d);
    QuotientBelow(w, 0.5, t);
    if st.spotAngle == 0.0 {
      assert DegreeToRadian(st.spotAngle) == 0.0;
    }
  }

  /** Dividing a non-negative amount by a larger positive divisor gives no more. */
  lemma QuotientBelow(w: real, small: real, large: real)
    requires w >= 0.0 && 0.0 < small <= large
    ensures w / large <= w / small
  {
    var q := w / large;
    assert w / small == q * (large / small);
    assert large / small >= 1.0;
    assert q * (large / small) >= q * 1.0;
  }

  /** The x coordinate of spot i's origin, which is also where line i stands. */
  function SpotX(st: LotSettings, m: Maths, i: int): real {
    i as real * Spacing(st, m)
  }

  /**
    The spots are evenly spaced: each origin is one spacing after the one
    before, so they run strictly left to right when the spacing is positive.
  */
  lemma SpotsEvenlySpaced(st: LotSettings, m: Maths, i: int, j: int)
    requires i < j
    ensures SpotX(st, m, i + 1) - SpotX(st, m, i) == Spacing(st, m)
    ensures SpotX(st, m, j) - SpotX(st, m, i) == (j - i) as real * Spacing(st, m)
    ensures Spacing(st, m) > 0.0 ==> SpotX(st, m, i) < SpotX(st, m, j)
  {
    var s := Spacing(st, m);
    assert SpotX(st, m, j) - SpotX(st, m, i) == (j - i) as real * s;
    if s > 0.0 {
      assert (j - i) as real * s > 0.0;
    }
  }
}
