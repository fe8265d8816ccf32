/**
  The road component's shared settings and the preamble every spline
  generator runs: choose the base segment count from the road precision,
  sample one frame per boundary, then choose the boundaries to keep.
*/
module RoadLayout {
  import opened Wrappers
  import opened Geometry
  import opened Meshes
  import opened Segments

  /** The road component's properties that the generators read. */
  datatype RoadSettings = RoadSettings(
    useRotationMinimizingFrames: bool,
    autoSimplify: bool,
    straightThreshold: real,
    minSegmentsToMerge: int,
    roadMaterial: Option<Material>,
    roadWidth: real,
    roadPrecision: real,
    roadTextureRepeat: real,
    hasSidewalk: bool,
    sidewalkMaterial: Option<Material>,
    sidewalkWidth: real,
    sidewalkHeight: real,
    sidewalkTextureRepeat: real)
  {
    /** The ranges the clamping property setters keep. */
    ghost predicate Valid() {
      && 1.0 <= roadPrecision <= 10000.0
      && 1.0 <= roadTextureRepeat <= 100000.0
      && 1.0 <= sidewalkTextureRepeat <= 100000.0
    }

    /** The `RoadPrecision` setter: clamps to [1, 10000]. */
    function SetRoadPrecision(v: real): (r: RoadSettings)
      ensures 1.0 <= r.roadPrecision <= 10000.0
      ensures 1.0 <= v <= 10000.0 ==> r.roadPrecision == v
      ensures Valid() ==> r.Valid()
      ensures r.(roadPrecision := roadPrecision) == this
    {
      this.(roadPrecision := Clamp(v, 1.0, 10000.0))
    }

    /** The `RoadTextureInchesPerRepeat` setter: clamps to [1, 100000]. */
    function SetRoadTextureRepeat(v: real): (r: RoadSettings)
      ensures 1.0 <= r.roadTextureRepeat <= 100000.0
      ensures 1.0 <= v <= 100000.0 ==> r.roadTextureRepeat == v
      ensures Valid() ==> r.Valid()
      ensures r.(roadTextureRepeat := roadTextureRepeat) == this
    {
      this.(roadTextureRepeat := Clamp(v, 1.0, 100000.0))
    }

    /** The `SidewalkTextureRepeat` setter: clamps to [1, 100000]. */
    function SetSidewalkTextureRepeat(v: real): (r: RoadSettings)
      ensures 1.0 <= r.sidewalkTextureRepeat <= 100000.0
      ensures 1.0 <= v <= 100000.0 ==> r.sidewalkTextureRepeat == v
      ensures Valid() ==> r.Valid()
      ensures r.(sidewalkTextureRepeat := sidewalkTextureRepeat) == this
    {
      this.(sidewalkTextureRepeat := Clamp(v, 1.0, 100000.0))
    }
  }

  /** The property defaults of a new road component. */
  const DefaultSettings := RoadSettings(
    false, false, 1.0, 3,
    None, 500.0, 40.0, 500.0,
    true, None, 150.0, 5.0, 200.0)

  lemma DefaultsValid()
    ensures DefaultSettings.Valid()
  {
  }

  /**
    The sampled spline: one frame per boundary of `n` segments, the kept
    boundaries and the spline length.
  */
  datatype Layout = Layout(frames: seq<Frame>, keep: seq<int>, n: nat, length: real)
  {
    /**
      At least one segment, a frame for every boundary 0..n, and a kept list
      that starts at 0, ends at n and strictly increases.
    */
    ghost predicate Valid() {
      && 1 <= n < |frames|
      && |keep| >= 2
      && keep[0] == 0
      && keep[|keep| - 1] == n
      && Increasing(keep)
      && (forall j :: 0 <= j < |keep| ==> 0 <= keep[j] <= n)
    }

    /** The number of kept segments, `segmentsToKeep.Count - 1`. */
    function Count(): int { |keep| - 1 }

    /** Arc length of boundary `idx`: idx/n of the spline. */
    function Distance(idx: int): real
      requires n >= 1
    {
      (idx as real / n as real) * length
    }
  }

  /** The frames the chosen sampling mode produces. */
  function SampledFrames(spline: Spline, rmf: bool, count: nat): seq<Frame> {
    if rmf then SeamCorrected(spline, RmfFrames(spline, count)) else UpDirFrames(spline, count)
  }

  /** The boundaries kept among `n` segments over `frames`. */
  ghost function KeptSegments(frames: seq<Frame>, n: nat, st: RoadSettings, m: Maths): seq<int>
    requires n < |frames|
  {
    if st.autoSimplify then ImportantSegments(StraightFlags(frames, n, st.straightThreshold, m), n, st.minSegmentsToMerge)
    else AllSegments(n)
  }

  /**
    The layout the preamble computes for a spline. It is well formed: at least
    two segments, one frame per boundary, and a kept list from 0 to n; with
    simplification off every boundary is kept.
  */
  ghost function PlannedLayout(spline: Spline, st: RoadSettings, m: Maths): (r: Layout)
    requires st.Valid()
    ensures r.Valid() && r.n >= 2 && |r.frames| == r.n + 1
    ensures !st.autoSimplify ==> r.Count() == r.n
  {
    var n := BaseSegmentCount(spline.length, st.roadPrecision);
    var frames := SampledFrames(spline, st.useRotationMinimizingFrames, n + 1);
    if st.autoSimplify then
      ImportantSegmentsShape(StraightFlags(frames, n, st.straightThreshold, m), n, st.minSegmentsToMerge);
      Layout(frames, KeptSegments(frames, n, st, m), n, spline.length)
    else
      var all := AllSegments(n);
      assert all[0] == 0 && all[n] == n;
      Layout(frames, KeptSegments(frames, n, st, m), n, spline.length)
  }

  /** Samples the frames in the configured mode. */
  method SampleFrames(spline: Spline, rmf: bool, count: nat) returns (frames: array<Frame>)
    requires count >= 1
    ensures fresh(frames)
    ensures frames[..] == SampledFrames(spline, rmf, count)
  {
    if rmf {
      frames := CalculateRotationMinimizingTangentFrames(spline, count);
    } else {
      frames := CalculateTangentFramesUsingUpDir(spline, count);
    }
  }

  /**
    The preamble of the spline generators: base segment count from the road
    precision, one frame per boundary, then the kept boundaries.
  */
  method SampleLayout(spline: Spline, st: RoadSettings, m: Maths) returns (layout: Layout)
    requires st.Valid()
    ensures layout == PlannedLayout(spline, st, m)
    ensures layout.Valid()
  {
    var n := BaseSegmentCount(spline.length, st.roadPrecision);
    var frames := SampleFrames(spline, st.useRotationMinimizingFrames, n + 1);
    var keep := ChooseSegments(frames, n, st.autoSimplify, st.minSegmentsToMerge, st.straightThreshold, m);
    layout := Layout(frames[..], keep, n, spline.length);
  }

  /** The sampler's schedule for n + 1 samples puts boundary idx at the layout's arc length for it. */
  lemma ScheduleMatches(layout: Layout, idx: int)
    requires layout.n >= 1
    ensures SampleDistance(idx, layout.n + 1, layout.length) == layout.Distance(idx)
  {
    assert ((layout.n + 1) - 1) as real == layout.n as real;
  }

  /** On a well-behaved spline every sampled frame lies on the curve at its boundary's arc length. */
  lemma FramesOnSpline(spline: Spline, st: RoadSettings, m: Maths, idx: int)
    requires spline.Sane() && st.Valid()
    requires 0 <= idx <= PlannedLayout(spline, st, m).n
    ensures var layout := PlannedLayout(spline, st, m);
            layout.frames[idx].position == spline.positionAt(layout.Distance(idx))
  {
    var layout := PlannedLayout(spline, st, m);
    SamplersAgreeOnPositions(spline, layout.n + 1);
    ScheduleMatches(layout, idx);
  }

  /** Kept boundaries are increasing, so their arc lengths never decrease along a non-negative spline. */
  lemma DistancesIncrease(layout: Layout, i: int, j: int)
    requires layout.Valid() && layout.length >= 0.0
    requires 0 <= i <= j < |layout.keep|
    ensures 0.0 <= layout.Distance(layout.keep[i]) <= layout.Distance(layout.keep[j]) <= layout.length
    ensures layout.Distance(layout.keep[0]) == 0.0 && layout.Distance(layout.keep[|layout.keep| - 1]) == layout.length
  {
    SampleSchedule(layout.n + 1, layout.length);
    ScheduleMatches(layout, layout.n);
    if i < j {
      assert layout.keep[i] < layout.keep[j];
    }
    SampleDistancesOrdered(layout.keep[i], layout.keep[j], layout.n + 1, layout.length);
    ScheduleMatches(layout, layout.keep[i]);
    ScheduleMatches(layout, layout.keep[j]);
  }
}
