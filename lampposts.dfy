/**
  The road component's lampposts: posts stood along the spline at evenly
  spaced samples, on the left, the right, both sides or alternating sides,
  pushed out past the road and sidewalk and lifted onto the sidewalk. Only
  where each post stands is modelled; what it looks like is the prefab's
  business.
*/
module Lampposts {
  import opened Wrappers
  import opened Geometry
  import opened Segments
  import opened RoadLayout

  /** Which side of the road gets posts. */
  datatype LamppostSide = Left | Right | Both | Alternating

  /**
    The lamppost properties: whether the feature is on and a prefab is set,
    the spacing (clamped to [10, 100000] by its setter), the outward and
    upward offsets, the side choice and the lengths left free at both ends.
  */
  datatype LampSettings = LampSettings(
    hasLampposts: bool,
    hasPrefab: bool,
    spacing: real,
    offsetFromSidewalk: real,
    heightOffset: real,
    placement: LamppostSide,
    startOffset: real,
    endOffset: real)
  {
    /** The range the spacing setter keeps. */
    predicate Valid() {
      10.0 <= spacing <= 100000.0
    }

    /** The `LamppostSpacing` setter: clamps to [10, 100000]. */
    function WithSpacing(v: real): (r: LampSettings)
      ensures r.Valid()
      ensures 10.0 <= v <= 100000.0 ==> r.spacing == v
      ensures r.(spacing := spacing) == this
    {
      this.(spacing := Clamp(v, 10.0, 100000.0))
    }
  }

  /** The property defaults: off, no prefab, spacing 50, 10 out, no lift, both sides, no free ends. */
  const DefaultLamps := LampSettings(false, false, 50.0, 10.0, 0.0, Both, 0.0, 0.0)

  lemma DefaultLampsValid()
    ensures DefaultLamps.Valid()
  {
  }

  /** A placed post: where it stands and whether it is on the left. Its rotation is not modelled. */
  datatype Lamppost = Lamppost(position: Vec3, onLeft: bool)

  /** A kept boundary of the simplified spline: its frame and its arc length. */
  datatype FramePoint = FramePoint(frame: Frame, distance: real)

  // ------------------------------------------------------------- the counts

  /** The length between the two free ends. */
  function EffectiveLength(length: real, ls: LampSettings): real {
    length - ls.startOffset - ls.endOffset
  }

  /** The number of gaps between samples: the effective length over the spacing, rounded up, at least 1. */
  function LamppostCount(effectiveLength: real, spacing: real): (r: int)
    requires spacing > 0.0
    ensures r >= 1
  {
    MaxInt(1, Ceil(effectiveLength / spacing))
  }

  /**
    With a positive effective length the count is the least number of gaps
    of at most `spacing` that cover it.
  */
  lemma LamppostCountBounds(effectiveLength: real, spacing: real)
    requires effectiveLength > 0.0 && spacing > 0.0
    ensures var n := LamppostCount(effectiveLength, spacing);
            && n >= 1
            && effectiveLength / spacing <= n as real < effectiveLength / spacing + 1.0
  {
    assert effectiveLength / spacing > 0.0;
  }

  /** Whether a sample at arc length d lies between the free ends (both ends included). */
  predicate InWindow(d: real, length: real, ls: LampSettings) {
    !(d < ls.startOffset || d > length - ls.endOffset)
  }

  /** Whether sample i gets a post on the left. */
  predicate PlaceLeft(side: LamppostSide, i: int) {
    match side
    case Left => true
    case Right => false
    case Both => true
    case Alternating => i % 2 == 0
  }

  /** Whether sample i gets a post on the right. */
  predicate PlaceRight(side: LamppostSide, i: int) {
    match side
    case Left => false
    case Right => true
    case Both => true
    case Alternating => i % 2 != 0
  }

  /** Posts per kept sample: two for both sides, one otherwise. */
  function PerSample(side: LamppostSide): nat {
    if side == Both then 2 else 1
  }

  /**
    Every kept sample gets at least one post; it gets two exactly for both
    sides; alternating sides put even samples on the left and odd samples on
    the right.
  */
  lemma SideChoice(side: LamppostSide, i: int)
    requires i >= 0
    ensures PlaceLeft(side, i) || PlaceRight(side, i)
    ensures (PlaceLeft(side, i) && PlaceRight(side, i)) <==> side == Both
    ensures (if PlaceLeft(side, i) then 1 else 0) + (if PlaceRight(side, i) then 1 else 0) == PerSample(side)
    ensures side == Alternating ==> (PlaceLeft(side, i) <==> i % 2 == 0)
  {
  }

  // --------------------------------------------------------- the positions

  /** How far out from the centre line posts stand: half the road, the sidewalk if any, then the extra offset. */
  function LateralOffset(st: RoadSettings, ls: LampSettings): real {
    st.roadWidth * 0.5 + (if st.hasSidewalk then st.sidewalkWidth else 0.0) + ls.offsetFromSidewalk
  }

  /** How far up posts stand: the height offset, plus the curb height if there is a sidewalk. */
  function Lift(st: RoadSettings, ls: LampSettings): real {
    ls.heightOffset + (if st.hasSidewalk then st.sidewalkHeight else 0.0)
  }

  /** A left post: the frame's position moved against its right axis and up its up axis. */
  function LeftPosition(f: Frame, lateral: real, lift: real): Vec3 {
    Add(Sub(f.position, Scale(f.right, lateral)), Scale(f.up, lift))
  }

  /** A right post: the frame's position moved along its right axis and up its up axis. */
  function RightPosition(f: Frame, lateral: real, lift: real): Vec3 {
    Add(Add(f.position, Scale(f.right, lateral)), Scale(f.up, lift))
  }

  /**
    The two posts of a sample mirror each other: they are twice the lateral
    offset apart along the frame's right axis, and their midpoint is the
    frame's position lifted along its up axis.
  */
  lemma PostsMirror(f: Frame, lateral: real, lift: real)
    ensures Sub(RightPosition(f, lateral, lift), LeftPosition(f, lateral, lift)) == Scale(f.right, 2.0 * lateral)
    ensures Add(RightPosition(f, lateral, lift), LeftPosition(f, lateral, lift)) == Scale(Add(f.position, Scale(f.up, lift)), 2.0)
  {
  }

  // --------------------------------------------------------- the samples

  /** Everything the placement loop reads. `interpolate` stands for the frame lookup along the kept boundaries. */
  datatype Placing = Placing(
    length: real,
    lampCount: int,
    ls: LampSettings,
    lateral: real,
    lift: real,
    positions: seq<FramePoint>,
    interpolate: (seq<FramePoint>, real) -> Frame)

  /** The posts of sample i around frame f: the left post and then the right post its side choice asks for. */
  function SidePosts(side: LamppostSide, i: int, f: Frame, lateral: real, lift: real): seq<Lamppost> {
    (if PlaceLeft(side, i) then [Lamppost(LeftPosition(f, lateral, lift), true)] else [])
    + (if PlaceRight(side, i) then [Lamppost(RightPosition(f, lateral, lift), false)] else [])
  }

  /** The posts of sample i: none outside the window, else its side posts around the frame there. */
  function LampsAt(p: Placing, i: int): (r: seq<Lamppost>)
    ensures |r| <= 2
  {
    var d := SampleDistance(i, p.lampCount + 1, p.length);
    if !InWindow(d, p.length, p.ls) then []
    else SidePosts(p.ls.placement, i, p.interpolate(p.positions, d), p.lateral, p.lift)
  }

  /** The posts of samples 0 .. k - 1, in sample order. */
  function LampsUpTo(p: Placing, k: nat): (r: seq<Lamppost>)
    ensures |r| <= 2 * k
  {
    if k == 0 then [] else LampsUpTo(p, k - 1) + LampsAt(p, k - 1)
  }

  /**
    Sample i stands at i / count of the whole spline length: the first at the
    start, the last at the end, never going backwards.
  */
  lemma SamplesSpanSpline(p: Placing, i: int, j: int)
    requires p.lampCount >= 1 && p.length >= 0.0 && 0 <= i <= j <= p.lampCount
    ensures SampleDistance(0, p.lampCount + 1, p.length) == 0.0
    ensures SampleDistance(p.lampCount, p.lampCount + 1, p.length) == p.length
    ensures SampleDistance(i, p.lampCount + 1, p.length) <= SampleDistance(j, p.lampCount + 1, p.length)
  {
    SampleSchedule(p.lampCount + 1, p.length);
  }

  /**
    With no free ends, neighbouring samples are length / count apart, which
    is at most the spacing: the count is the effective length over the
    spacing rounded up, and the effective length is then the whole length.
  */
  lemma GapWithinSpacing(length: real, ls: LampSettings, i: int)
    requires ls.Valid() && ls.startOffset == 0.0 && ls.endOffset == 0.0 && length > 0.0
    ensures var n := LamppostCount(EffectiveLength(length, ls), ls.spacing);
            var gap := SampleDistance(i + 1, n + 1, length) - SampleDistance(i, n + 1, length);
            gap == length / n as real && gap <= ls.spacing
  {
    var n := LamppostCount(EffectiveLength(length, ls), ls.spacing);
    LamppostCountBounds(length, ls.spacing);
    var c := n as real;
    assert SampleDistance(i + 1, n + 1, length) - SampleDistance(i, n + 1, length) == length / c by {
      assert ((n + 1) - 1) as real == c;
      assert (i + 1) as real / c * length - i as real / c * length == (1.0 / c) * length;
    }
    assert length / ls.spacing <= c;
    assert length <= c * ls.spacing by {
      assert length == (length / ls.spacing) * ls.spacing;
      ScaleUp(length / ls.spacing, c, ls.spacing);
    }
    assert length / c <= ls.spacing by {
      DivideBelow(length, c, ls.spacing);
    }
  }

  /** Multiplying both sides of a <= b by a positive factor keeps the order. */
  lemma ScaleUp(a: real, b: real, k: real)
    requires a <= b && k > 0.0
    ensures a * k <= b * k
  {
  }

  /** x <= c · s with c positive gives x / c <= s. */
  lemma DivideBelow(x: real, c: real, s: real)
    requires c > 0.0 && x <= c * s
    ensures x / c <= s
  {
    assert x / c * c == x;
  }

  /**
    With no free ends every sample of a non-negative spline is kept, so the
    first k samples stand exactly `PerSample` posts each.
  */
  lemma {:induction false} AllSamplesKept(p: Placing, k: nat)
    requires p.ls.startOffset == 0.0 && p.ls.endOffset == 0.0 && p.length >= 0.0
    requires p.lampCount >= 1 && k <= p.lampCount + 1
    ensures |LampsUpTo(p, k)| == k * PerSample(p.ls.placement)
  {
    if k > 0 {
      AllSamplesKept(p, k - 1);
      SamplesSpanSpline(p, 0, k - 1);
      SamplesSpanSpline(p, k - 1, p.lampCount);
      SideChoice(p.ls.placement, k - 1);
    }
  }

  /** Every post stands at a sample inside the window, on the side its sample's choice names. */
  lemma {:induction false} PostsInWindow(p: Placing, k: nat, n: int)
    requires 0 <= n < |LampsUpTo(p, k)|
    ensures exists i :: 0 <= i < k && InWindow(SampleDistance(i, p.lampCount + 1, p.length), p.length, p.ls)
                        && (if LampsUpTo(p, k)[n].onLeft then PlaceLeft(p.ls.placement, i) else PlaceRight(p.ls.placement, i))
  {
    var prefix := LampsUpTo(p, k - 1);
    if n < |prefix| {
      PostsInWindow(p, k - 1, n);
      var i :| 0 <= i < k - 1 && InWindow(SampleDistance(i, p.lampCount + 1, p.length), p.length, p.ls)
                && (if prefix[n].onLeft then PlaceLeft(p.ls.placement, i) else PlaceRight(p.ls.placement, i));
      assert LampsUpTo(p, k)[n] == prefix[n];
    } else {
      assert LampsUpTo(p, k)[n] == LampsAt(p, k - 1)[n - |prefix|];
      assert InWindow(SampleDistance(k - 1, p.lampCount + 1, p.length), p.length, p.ls);
    }
  }

  // --------------------------------------------------- the simplified spline

  /** The kept boundaries with their frames and arc lengths. */
  function SimplifiedPositions(layout: Layout): (r: seq<FramePoint>)
    requires layout.Valid()
    ensures |r| == |layout.keep|
  {
    seq(|layout.keep|, j requires 0 <= j < |layout.keep| =>
      FramePoint(layout.frames[layout.keep[j]], layout.Distance(layout.keep[j])))
  }

  /** Collects the kept boundaries one by one, each with its frame and its arc length. */
  method SimplifyPositions(layout: Layout) returns (positions: seq<FramePoint>)
    requires layout.Valid()
    ensures positions == SimplifiedPositions(layout)
  {
    positions := [];
    for j := 0 to |layout.keep|
      invariant positions == SimplifiedPositions(layout)[..j]
    {
      var index := layout.keep[j];
      var t := index as real / layout.n as real;
      var distance := t * layout.length;
      assert distance == layout.Distance(index);
      assert FramePoint(layout.frames[index], distance) == SimplifiedPositions(layout)[j];
      positions := positions + [FramePoint(layout.frames[index], distance)];
      assert SimplifiedPositions(layout)[..j + 1] == SimplifiedPositions(layout)[..j] + [SimplifiedPositions(layout)[j]];
    }
    assert SimplifiedPositions(layout)[..|layout.keep|] == SimplifiedPositions(layout);
  }

  /**
    Without simplification every boundary is kept: entry j holds frame j at
    arc length j / n of the spline, from 0 up to the whole length.
  */
  lemma UnsimplifiedPositions(spline: Spline, st: RoadSettings, m: Maths, j: int)
    requires st.Valid() && !st.autoSimplify
    requires 0 <= j <= PlannedLayout(spline, st, m).n
    ensures var layout := PlannedLayout(spline, st, m);
            var positions := SimplifiedPositions(layout);
            && |positions| == layout.n + 1
            && positions[j] == FramePoint(layout.frames[j], SampleDistance(j, layout.n + 1, spline.length))
  {
    var layout := PlannedLayout(spline, st, m);
    assert layout.keep == AllSegments(layout.n);
    ScheduleMatches(layout, j);
  }

  // ----------------------------------------------------------- the build

  /** Everything the placement loop reads, for a given layout. */
  function PlacingFor(spline: Spline, st: RoadSettings, ls: LampSettings, layout: Layout,
                      interpolate: (seq<FramePoint>, real) -> Frame): Placing
    requires ls.Valid() && layout.Valid()
  {
    Placing(spline.length, LamppostCount(EffectiveLength(spline.length, ls), ls.spacing), ls,
            LateralOffset(st, ls), Lift(st, ls), SimplifiedPositions(layout), interpolate)
  }

  /**
    The posts one build stands outside play mode: none when the free ends
    leave no length, otherwise the posts of all count + 1 samples.
  */
  ghost function PlannedLampposts(spline: Spline, st: RoadSettings, ls: LampSettings, m: Maths,
                                  interpolate: (seq<FramePoint>, real) -> Frame): (r: seq<Lamppost>)
    requires st.Valid() && ls.Valid()
    ensures EffectiveLength(spline.length, ls) <= 0.0 ==> r == []
    ensures |r| <= 2 * (LamppostCount(EffectiveLength(spline.length, ls), ls.spacing) + 1)
  {
    var effectiveLength := EffectiveLength(spline.length, ls);
    if effectiveLength <= 0.0 then []
    else
      var p := PlacingFor(spline, st, ls, PlannedLayout(spline, st, m), interpolate);
      LampsUpTo(p, p.lampCount + 1)
  }

  /** The loop's sample distance is the schedule's sample distance. */
  lemma AtSample(i: int, frameCount: int, length: real, t: real, distance: real)
    requires frameCount > 1 && t == i as real / (frameCount - 1) as real && distance == t * length
    ensures distance == SampleDistance(i, frameCount, length)
  {
  }

  /**
    The posts under the component's "Lampposts" child, and the flag that
    asks for them to be stood again.
  */
  class LamppostRow {
    var placed: seq<Lamppost>
    var needsRebuild: bool

    /** A component starts with no posts and no pending rebuild. */
    constructor()
      ensures placed == [] && !needsRebuild
    {
      placed := [];
      needsRebuild := false;
    }

    /** Any lamppost property set, or the feature toggled: a rebuild is pending. */
    method MarkForRebuild()
      modifies this
      ensures needsRebuild && placed == old(placed)
    {
      needsRebuild := true;
    }

    /** `RemoveLampposts`: every post is destroyed, except in play mode, which keeps them. */
    method RemoveLampposts(playing: bool)
      modifies this
      ensures placed == if playing then old(placed) else []
      ensures needsRebuild == old(needsRebuild)
    {
      if playing {
        return;
      }
      placed := [];
    }

    /**
      `BuildLampposts`: nothing in play mode or when the free ends leave no
      length; otherwise the layout is sampled as the road does, and each of
      the count + 1 samples inside the window gets its posts.
    */
    method BuildLampposts(spline: Spline, st: RoadSettings, ls: LampSettings, m: Maths,
                          interpolate: (seq<FramePoint>, real) -> Frame, playing: bool)
      requires st.Valid() && ls.Valid()
      modifies this
      ensures placed == old(placed) + if playing then [] else PlannedLampposts(spline, st, ls, m, interpolate)
      ensures needsRebuild == old(needsRebuild)
    {
      if playing {
        return;
      }
      var splineLength := spline.length;
      var effectiveLength := splineLength - ls.startOffset - ls.endOffset;
      if effectiveLength <= 0.0 {
        return;
      }
      var layout := SampleLayout(spline, st, m);
      var positions := SimplifyPositions(layout);
      var lampCount := MaxInt(1, Ceil(effectiveLength / ls.spacing));
      var frameCount := lampCount + 1;
      var totalOffset := st.roadWidth * 0.5 + (if st.hasSidewalk then st.sidewalkWidth else 0.0) + ls.offsetFromSidewalk;
      var lift := ls.heightOffset + (if st.hasSidewalk then st.sidewalkHeight else 0.0);
      ghost var p := PlacingFor(spline, st, ls, layout, interpolate);
      assert p == Placing(splineLength, frameCount - 1, ls, totalOffset, lift, positions, interpolate);
      StandPosts(splineLength, frameCount, ls, totalOffset, lift, positions, interpolate, p);
    }

    /** The placement loop: each of the `frameCount` samples inside the window gets its side posts. */
    method StandPosts(splineLength: real, frameCount: int, ls: LampSettings, totalOffset: real, lift: real,
                      positions: seq<FramePoint>, interpolate: (seq<FramePoint>, real) -> Frame, ghost p: Placing)
      requires frameCount > 1 && p == Placing(splineLength, frameCount - 1, ls, totalOffset, lift, positions, interpolate)
      modifies this
      ensures placed == old(placed) + LampsUpTo(p, frameCount)
      ensures needsRebuild == old(needsRebuild)
    {
      for i := 0 to frameCount
        invariant placed == old(placed) + LampsUpTo(p, i)
        invariant needsRebuild == old(needsRebuild)
      {
        var t := i as real / (frameCount - 1) as real;
        var distance := t * splineLength;
        AtSample(i, frameCount, splineLength, t, distance);
        if distance < ls.startOffset || distance > splineLength - ls.endOffset {
          assert LampsAt(p, i) == [];
          assert LampsUpTo(p, i + 1) == LampsUpTo(p, i);
          continue;
        }
        var frame := interpolate(positions, distance);
        var posts := PlacePosts(ls.placement, i, frame, totalOffset, lift);
        assert posts == LampsAt(p, i);
        assert LampsUpTo(p, i + 1) == LampsUpTo(p, i) + posts;
        placed := placed + posts;
      }
    }

    /** The side switch of the placement loop: the posts sample i gets around `frame`. */
    static method PlacePosts(side: LamppostSide, i: int, frame: Frame, totalOffset: real, lift: real)
      returns (posts: seq<Lamppost>)
      ensures posts == SidePosts(side, i, frame, totalOffset, lift)
    {
      var placeLeft, placeRight := false, false;
      match side {
        case Left => placeLeft := true;
        case Right => placeRight := true;
        case Both => placeLeft, placeRight := true, true;
        case Alternating =>
          if i % 2 == 0 {
            placeLeft := true;
          } else {
            placeRight := true;
          }
      }
      posts := [];
      if placeLeft {
        posts := posts + [Lamppost(LeftPosition(frame, totalOffset, lift), true)];
      }
      if placeRight {
        posts := posts + [Lamppost(RightPosition(frame, totalOffset, lift), false)];
      }
    }

    /**
      `CreateLampposts`: the old posts are removed, then, when the feature is
      on and a prefab is set, a build stands the new ones. Outside play mode
      the row is exactly the planned posts or nothing; in play mode it is
      left as it was.
    */
    method CreateLampposts(spline: Spline, st: RoadSettings, ls: LampSettings, m: Maths,
                           interpolate: (seq<FramePoint>, real) -> Frame, playing: bool)
      requires st.Valid() && ls.Valid()
      modifies this
      ensures placed == if playing then old(placed)
                        else if ls.hasLampposts && ls.hasPrefab then PlannedLampposts(spline, st, ls, m, interpolate)
                        else []
      ensures needsRebuild == old(needsRebuild)
    {
      RemoveLampposts(playing);
      if !ls.hasLampposts || !ls.hasPrefab {
        return;
      }
      BuildLampposts(spline, st, ls, m, interpolate, playing);
    }

    /** `UpdateLampposts`: a pending rebuild re-creates the posts and is cleared; otherwise nothing changes. */
    method UpdateLampposts(spline: Spline, st: RoadSettings, ls: LampSettings, m: Maths,
                           interpolate: (seq<FramePoint>, real) -> Frame, playing: bool)
      requires st.Valid() && ls.Valid()
      modifies this
      ensures !needsRebuild
      ensures old(needsRebuild) && !playing ==>
                placed == if ls.hasLampposts && ls.hasPrefab then PlannedLampposts(spline, st, ls, m, interpolate) else []
      ensures !old(needsRebuild) || playing ==> placed == old(placed)
    {
      if needsRebuild {
        CreateLampposts(spline, st, ls, m, interpolate, playing);
        needsRebuild := false;
      }
    }
  }
}
