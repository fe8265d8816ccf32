/**
  Sampling a road spline into frames and choosing which sample boundaries to
  keep: the two frame samplers, the turning angle between consecutive
  segments and the adaptive simplifier that drops long straight runs.
*/
module Segments {
  import opened Geometry

  /** Arc length of sample `i` of `count`: i/(count-1) of the spline length, or 0 for a single sample. */
  function SampleDistance(i: int, count: int, length: real): real {
    if count > 1 then (i as real / (count - 1) as real) * length else 0.0
  }

  /**
    The sample schedule starts at 0, ends at the full length and never goes
    backwards.
  */
  lemma SampleSchedule(count: int, length: real)
    requires count >= 2 && length >= 0.0
    ensures SampleDistance(0, count, length) == 0.0
    ensures SampleDistance(count - 1, count, length) == length
    ensures forall i, j :: 0 <= i <= j < count ==>
      0.0 <= SampleDistance(i, count, length) <= SampleDistance(j, count, length) <= length
  {
    var c := (count - 1) as real;
    assert SampleDistance(0, count, length) == (0.0 / c) * length;
    assert SampleDistance(count - 1, count, length) == (c / c) * length;
    DivideSelf(c);
    forall i, j | 0 <= i <= j < count
      ensures 0.0 <= SampleDistance(i, count, length) <= SampleDistance(j, count, length) <= length
    {
      SampleDistancesOrdered(i, j, count, length);
    }
  }

  lemma SampleDistancesOrdered(i: int, j: int, count: int, length: real)
    requires 0 <= i <= j < count && count >= 2 && length >= 0.0
    ensures 0.0 <= SampleDistance(i, count, length) <= SampleDistance(j, count, length) <= length
  {
    FractionsOrdered(i as real, j as real, (count - 1) as real, length);
  }

  lemma FractionsOrdered(i: real, j: real, c: real, length: real)
    requires 0.0 <= i <= j <= c && c > 0.0 && length >= 0.0
    ensures 0.0 <= (i / c) * length <= (j / c) * length <= length
  {
    DivideOrdered(i, j, c);
    DivideOrdered(j, c, c);
    DivideSelf(c);
    MultiplyOrdered(i / c, j / c, length);
    MultiplyOrdered(j / c, 1.0, length);
  }

  lemma DivideSelf(c: real)
    requires c > 0.0
    ensures c / c == 1.0
  {
  }

  lemma DivideOrdered(a: real, b: real, c: real)
    requires 0.0 <= a <= b && c > 0.0
    ensures 0.0 <= a / c <= b / c
  {
  }

  lemma MultiplyOrdered(a: real, b: real, k: real)
    requires 0.0 <= a <= b && k >= 0.0
    ensures 0.0 <= a * k <= b * k
  {
  }

  // ---------------------------------------------------------------- samplers

  /** The up-vector-mode frames: frame i is the spline's own rolled frame at sample distance i. */
  function UpDirFrames(s: Spline, count: nat): (r: seq<Frame>)
    ensures |r| == count
  {
    seq(count, i requires 0 <= i < count => s.frameAt(SampleDistance(i, count, s.length)))
  }

  /** The transported up vector at sample i of the rotation-minimizing mode. */
  function RmfUp(s: Spline, count: nat, i: nat): Vec3 {
    if i == 0 then s.startUp
    else s.transportUp(RmfUp(s, count, i - 1), SampleDistance(i - 1, count, s.length), SampleDistance(i, count, s.length))
  }

  /** The rotation-minimizing frames before the loop-seam correction. */
  function RmfFrames(s: Spline, count: nat): (r: seq<Frame>)
    ensures |r| == count
  {
    seq(count, i requires 0 <= i < count => s.frameWithUp(SampleDistance(i, count, s.length), RmfUp(s, count, i)))
  }

  /** On a looped spline with more than one frame every frame is twisted to close the seam; otherwise nothing changes. */
  function SeamCorrected(s: Spline, frames: seq<Frame>): (r: seq<Frame>)
    ensures |r| == |frames|
  {
    if s.isLoop && |frames| > 1 then
      seq(|frames|, i requires 0 <= i < |frames| => s.seamCorrect(frames[0], frames[|frames| - 1], i, |frames|, frames[i]))
    else frames
  }

  /** Samples `count` frames in up-vector mode at the evenly spaced sample distances. */
  method CalculateTangentFramesUsingUpDir(s: Spline, count: nat) returns (frames: array<Frame>)
    ensures fresh(frames)
    ensures frames[..] == UpDirFrames(s, count)
  {
    frames := new Frame[count];
    for i := 0 to count
      invariant forall j :: 0 <= j < i ==> frames[j] == UpDirFrames(s, count)[j]
    {
      var distance := SampleDistance(i, count, s.length);
      frames[i] := s.frameAt(distance);
    }
  }

  /**
    Samples `count` frames in rotation-minimizing mode: the up vector is
    carried from each sample to the next, then a looped spline has its seam
    closed. The first frame is written unconditionally, so at least one frame
    is needed.
  */
  method CalculateRotationMinimizingTangentFrames(s: Spline, count: nat) returns (frames: array<Frame>)
    requires count >= 1
    ensures fresh(frames)
    ensures frames[..] == SeamCorrected(s, RmfFrames(s, count))
  {
    frames := new Frame[count];
    var up := s.startUp;
    var previous := SampleDistance(0, count, s.length);
    frames[0] := s.frameWithUp(previous, up);
    for i := 1 to count
      invariant previous == SampleDistance(i - 1, count, s.length)
      invariant up == RmfUp(s, count, i - 1)
      invariant forall j :: 0 <= j < i ==> frames[j] == RmfFrames(s, count)[j]
    {
      var distance := SampleDistance(i, count, s.length);
      up := s.transportUp(up, previous, distance);
      frames[i] := s.frameWithUp(distance, up);
      previous := distance;
    }
    assert frames[..] == RmfFrames(s, count);
    if s.isLoop && count > 1 {
      ghost var raw := frames[..];
      var first := frames[0];
      var last := frames[count - 1];
      for i := 0 to count
        invariant forall j :: 0 <= j < i ==> frames[j] == SeamCorrected(s, raw)[j]
        invariant forall j :: i <= j < count ==> frames[j] == raw[j]
      {
        frames[i] := s.seamCorrect(first, last, i, count, frames[i]);
      }
    }
  }

  /**
    Both samplers put frame i on the curve at sample distance i: the sampling
    mode changes orientations only.
  */
  lemma SamplersAgreeOnPositions(s: Spline, count: nat)
    requires s.Sane()
    ensures forall i :: 0 <= i < count ==>
      && UpDirFrames(s, count)[i].position == s.positionAt(SampleDistance(i, count, s.length))
      && SeamCorrected(s, RmfFrames(s, count))[i].position == s.positionAt(SampleDistance(i, count, s.length))
  {
    var rmf := RmfFrames(s, count);
    forall i | 0 <= i < count
      ensures UpDirFrames(s, count)[i].position == s.positionAt(SampleDistance(i, count, s.length))
      ensures SeamCorrected(s, rmf)[i].position == s.positionAt(SampleDistance(i, count, s.length))
    {
      assert UpDirFrames(s, count)[i] == s.frameAt(SampleDistance(i, count, s.length));
      assert rmf[i] == s.frameWithUp(SampleDistance(i, count, s.length), RmfUp(s, count, i));
      if s.isLoop && count > 1 {
        assert SeamCorrected(s, rmf)[i] == s.seamCorrect(rmf[0], rmf[count - 1], i, count, rmf[i]);
      }
    }
  }

  // ---------------------------------------------------------- turning angle

  /**
    The turning angle in degrees at `cur` between the segments from `prev` and
    to `next`; zero when either segment direction is degenerate.
  */
  function AngleBetweenSegments(prev: Frame, cur: Frame, next: Frame, m: Maths): (deg: real)
    ensures m.Sane() ==> 0.0 <= deg <= 180.0
  {
    var dir1 := m.normal(Sub(cur.position, prev.position));
    var dir2 := m.normal(Sub(next.position, cur.position));
    if m.nearZero(dir1) || m.nearZero(dir2) then 0.0
    else RadianToDegree(m.acos(Clamp(Dot(dir1, dir2), -1.0, 1.0)))
  }

  /** Two samples at the same place make no angle, so the boundary between them counts as straight. */
  lemma CoincidentSamplesAreStraight(prev: Frame, cur: Frame, next: Frame, m: Maths)
    requires m.Sane()
    requires cur.position == prev.position || next.position == cur.position
    ensures AngleBetweenSegments(prev, cur, next, m) == 0.0
  {
    if cur.position == prev.position {
      assert Sub(cur.position, prev.position) == Zero3;
    } else {
      assert Sub(next.position, cur.position) == Zero3;
    }
  }

  /**
    Per interior boundary 1..n-1 of `n` segments: whether the turning angle
    there is below the threshold. Entry 0 is unused.
  */
  function StraightFlags(frames: seq<Frame>, n: int, threshold: real, m: Maths): (flags: seq<bool>)
    requires n <= 1 || n < |frames|
    ensures |flags| == MaxInt(n, 0)
  {
    if n <= 0 then []
    else seq(n, i requires 0 <= i < n => 1 <= i && AngleBetweenSegments(frames[i - 1], frames[i], frames[i + 1], m) < threshold)
  }

  /** Whether the turning angle at interior boundary i is below the threshold. */
  ghost predicate StraightAt(frames: seq<Frame>, threshold: real, m: Maths, i: int)
    requires 1 <= i < |frames| - 1
  {
    AngleBetweenSegments(frames[i - 1], frames[i], frames[i + 1], m) < threshold
  }

  /** `flags` are the straight/curved decisions for the `n` segments sampled in `frames`. */
  ghost predicate FlagsOf(flags: seq<bool>, frames: seq<Frame>, n: int, threshold: real, m: Maths)
    requires n <= 1 || n < |frames|
  {
    && |flags| == MaxInt(n, 0)
    && forall i {:trigger StraightAt(frames, threshold, m, i)} :: 1 <= i < n ==> (flags[i] <==> StraightAt(frames, threshold, m, i))
  }

  lemma StraightFlagsAgree(frames: seq<Frame>, n: int, threshold: real, m: Maths)
    requires n <= 1 || n < |frames|
    ensures FlagsOf(StraightFlags(frames, n, threshold, m), frames, n, threshold, m)
  {
  }

  /** The angle only looks at positions, so frames at the same positions give the same straight/curved decisions. */
  lemma {:induction false} FlagsDependOnPositionsOnly(a: seq<Frame>, b: seq<Frame>, n: int, threshold: real, m: Maths)
    requires n <= 1 || n < |a|
    requires |a| == |b| && forall i :: 0 <= i < |a| ==> a[i].position == b[i].position
    ensures StraightFlags(a, n, threshold, m) == StraightFlags(b, n, threshold, m)
  {
    if n > 0 {
      forall i | 1 <= i < n
        ensures AngleBetweenSegments(a[i - 1], a[i], a[i + 1], m) == AngleBetweenSegments(b[i - 1], b[i], b[i + 1], m)
      {
        assert a[i - 1].position == b[i - 1].position && a[i].position == b[i].position && a[i + 1].position == b[i + 1].position;
      }
    }
  }

  // ------------------------------------------------------------ straight runs

  /** Start of the straight run ending at or just before `x`: walk back while the previous interior boundary is straight. */
  function RunStart(flags: seq<bool>, x: int): (s: int)
    requires 1 <= x < |flags|
    ensures 1 <= s <= x
    ensures forall k :: s <= k < x ==> flags[k]
    ensures s == 1 || !flags[s - 1]
    decreases x
  {
    if x > 1 && flags[x - 1] then RunStart(flags, x - 1) else x
  }

  /** End of the straight run starting at or just after `x`: walk forward while the next interior boundary is straight. */
  function RunEnd(flags: seq<bool>, x: int): (e: int)
    requires 1 <= x < |flags|
    ensures x <= e < |flags|
    ensures forall k :: x < k <= e ==> flags[k]
    ensures e == |flags| - 1 || !flags[e + 1]
    decreases |flags| - x
  {
    if x + 1 < |flags| && flags[x + 1] then RunEnd(flags, x + 1) else x
  }

  /** Number of boundaries in the maximal straight run through `x`. */
  function RunLength(flags: seq<bool>, x: int): int
    requires 1 <= x < |flags|
  {
    RunEnd(flags, x) - RunStart(flags, x) + 1
  }

  /**
    A stretch [s, e] of straight interior boundaries that cannot be extended on
    either side is the maximal run of each of its members.
  */
  lemma MaximalRun(flags: seq<bool>, s: int, e: int, x: int)
    requires 1 <= s <= x <= e < |flags|
    requires forall k :: s <= k <= e ==> flags[k]
    requires s == 1 || !flags[s - 1]
    requires e == |flags| - 1 || !flags[e + 1]
    ensures RunStart(flags, x) == s && RunEnd(flags, x) == e
  {
  }

  /** Every member of a maximal straight stretch [s, t) has a run of length t - s. */
  lemma ClosedRunLength(flags: seq<bool>, s: int, t: int)
    requires 1 <= s <= t <= |flags|
    requires forall k :: s <= k < t ==> flags[k]
    requires s == 1 || !flags[s - 1]
    requires t == |flags| || !flags[t]
    ensures forall x :: s <= x < t ==> RunLength(flags, x) == t - s
  {
    forall x | s <= x < t
      ensures RunLength(flags, x) == t - s
    {
      MaximalRun(flags, s, t - 1, x);
    }
  }

  /** Two straight boundaries of the same run have the same run. */
  lemma SameRun(flags: seq<bool>, x: int, y: int)
    requires 1 <= x < |flags| && flags[x]
    requires RunStart(flags, x) <= y <= RunEnd(flags, x)
    ensures RunStart(flags, y) == RunStart(flags, x) && RunEnd(flags, y) == RunEnd(flags, x)
  {
    MaximalRun(flags, RunStart(flags, x), RunEnd(flags, x), y);
  }

  // -------------------------------------------------------------- selection

  /**
    Boundary x of `n` segments is kept when it is the first or the last, when
    the road turns there, or when its straight run is shorter than `minRun`.
  */
  ghost predicate IsImportant(flags: seq<bool>, n: int, minRun: int, x: int)
    requires |flags| == MaxInt(n, 0)
  {
    x == 0 || x == n || (1 <= x < n && (!flags[x] || RunLength(flags, x) < minRun))
  }

  predicate Increasing(s: seq<int>) {
    forall i, j :: 0 <= i < j < |s| ==> s[i] < s[j]
  }

  lemma IncreasingCons(x: int, s: seq<int>)
    requires Increasing(s) && forall y :: y in s ==> x < y
    ensures Increasing([x] + s)
  {
    var r := [x] + s;
    forall i, j | 0 <= i < j < |r| ensures r[i] < r[j] {
      assert r[j] == s[j - 1] && s[j - 1] in s;
      if i > 0 {
        assert r[i] == s[i - 1];
      }
    }
  }

  /** Inserts x into a strictly increasing sequence, unless it is already there. */
  function Insert(x: int, s: seq<int>): (r: seq<int>)
    requires Increasing(s)
    ensures Increasing(r)
    ensures forall y :: y in r <==> y == x || y in s
  {
    if s == [] then [x]
    else if x < s[0] then
      assert forall y :: y in s ==> x < y;
      IncreasingCons(x, s);
      [x] + s
    else if x == s[0] then s
    else
      var rest := Insert(x, s[1..]);
      assert forall y :: y in rest ==> s[0] < y;
      IncreasingCons(s[0], rest);
      [s[0]] + rest
  }

  /** `Distinct().OrderBy(x => x)` on integers: the distinct elements in ascending order. */
  function SortDistinct(xs: seq<int>): (r: seq<int>)
    ensures Increasing(r)
    ensures forall y :: y in r <==> y in xs
  {
    if xs == [] then []
    else
      var init := SortDistinct(xs[..|xs| - 1]);
      assert xs == xs[..|xs| - 1] + [xs[|xs| - 1]];
      Insert(xs[|xs| - 1], init)
  }

  /** A strictly increasing sequence is determined by its elements. */
  lemma {:induction false} IncreasingUnique(a: seq<int>, b: seq<int>)
    requires Increasing(a) && Increasing(b)
    requires forall y :: y in a <==> y in b
    ensures a == b
    decreases |a|
  {
    if a != [] {
      assert a[0] in a;
    }
    if b != [] {
      assert b[0] in b;
    }
    if a != [] && b != [] {
      forall y ensures y in a[1..] <==> y in b[1..] {
        if y in a[1..] {
          assert y > a[0] && y in b;
        }
        if y in b[1..] {
          assert y > b[0] && y in a;
        }
      }
      IncreasingUnique(a[1..], b[1..]);
      assert a == [a[0]] + a[1..] && b == [b[0]] + b[1..];
    }
  }

  /** The interior boundaries x..n-1 that are kept, in ascending order. */
  ghost function KeptInterior(flags: seq<bool>, minRun: int, x: int): (r: seq<int>)
    requires 1 <= x <= |flags|
    ensures Increasing(r)
    ensures forall y {:trigger y in r} :: y in r <==> x <= y < |flags| && (!flags[y] || RunLength(flags, y) < minRun)
    decreases |flags| - x
  {
    if x == |flags| then []
    else
      var rest := KeptInterior(flags, minRun, x + 1);
      if !flags[x] || RunLength(flags, x) < minRun then
        IncreasingCons(x, rest);
        [x] + rest
      else rest
  }

  /** The boundaries the simplifier keeps, in ascending order. */
  ghost function ImportantSegments(flags: seq<bool>, n: int, minRun: int): (r: seq<int>)
    requires |flags| == MaxInt(n, 0)
    ensures Increasing(r)
    ensures forall x :: x in r <==> IsImportant(flags, n, minRun, x)
  {
    if n <= 0 then SortDistinct([0, n])
    else
      var inner := KeptInterior(flags, minRun, 1);
      assert forall k :: 0 <= k < |inner| ==> 0 < inner[k] < n by {
        forall k | 0 <= k < |inner| ensures 0 < inner[k] < n { assert inner[k] in inner; }
      }
      var r := [0] + inner + [n];
      assert forall x :: x in r <==> x == 0 || x in inner || x == n;
      r
  }

  /** Every boundary 0..n, the selection used when simplification is off. */
  function AllSegments(n: nat): (r: seq<int>)
    ensures |r| == n + 1
  {
    seq(n + 1, i requires 0 <= i <= n => i)
  }

  /**
    What the simplifier keeps: the first boundary 0 and the last boundary n,
    nothing outside [0, n], every boundary where the road turns, and each
    maximal straight run either whole (when shorter than `minRun`) or not at all.
  */
  lemma ImportantSegmentsShape(flags: seq<bool>, n: int, minRun: int)
    requires n >= 1 && |flags| == n
    ensures |ImportantSegments(flags, n, minRun)| >= 2
    ensures ImportantSegments(flags, n, minRun)[0] == 0
    ensures ImportantSegments(flags, n, minRun)[|ImportantSegments(flags, n, minRun)| - 1] == n
    ensures forall x :: x in ImportantSegments(flags, n, minRun) ==> 0 <= x <= n
    ensures forall x :: 1 <= x < n && !flags[x] ==> x in ImportantSegments(flags, n, minRun)
    ensures forall x, y :: 1 <= x < n && flags[x] && RunStart(flags, x) <= y <= RunEnd(flags, x) ==>
      (x in ImportantSegments(flags, n, minRun) <==> y in ImportantSegments(flags, n, minRun))
  {
    var r := ImportantSegments(flags, n, minRun);
    assert 0 in r && n in r;
    forall x | x in r ensures 0 <= x <= n { }
    forall x, y | 1 <= x < n && flags[x] && RunStart(flags, x) <= y <= RunEnd(flags, x)
      ensures x in r <==> y in r
    {
      SameRun(flags, x, y);
    }
  }

  /** When no interior boundary is straight, the simplifier keeps every boundary. */
  lemma NothingStraightKeepsAll(flags: seq<bool>, n: nat, minRun: int)
    requires n >= 1 && |flags| == n
    requires forall x :: 1 <= x < n ==> !flags[x]
    ensures ImportantSegments(flags, n, minRun) == AllSegments(n)
  {
    var all := AllSegments(n);
    assert forall x :: x in all <==> 0 <= x <= n by {
      forall x | 0 <= x <= n ensures x in all { assert all[x] == x; }
    }
    IncreasingUnique(ImportantSegments(flags, n, minRun), all);
  }

  /**
    Chooses the boundaries to keep among the `n` segments sampled in `frames`:
    keeps the first, every boundary whose turning angle reaches `threshold`,
    each straight run shorter than `minRun`, and the last. The list is then
    deduplicated and sorted.
  */
  method DetectImportantSegments(frames: array<Frame>, n: int, minRun: int, threshold: real, m: Maths, ghost flags: seq<bool>)
    returns (important: seq<int>)
    requires n <= 1 || n < frames.Length
    requires FlagsOf(flags, frames[..], n, threshold, m)
    ensures important == ImportantSegments(flags, n, minRun)
  {
    var kept: seq<int> := [0];
    var run: seq<int> := [];
    var i := 1;
    while i < n
      invariant 1 <= i && (n >= 1 ==> i <= n)
      invariant n < 1 ==> kept == [0] && run == []
      invariant n >= 1 ==> Settled(flags, minRun, i, kept) && run == Range(RunFrom(flags, i), i)
    {
      var angle := AngleBetweenSegments(frames[i - 1], frames[i], frames[i + 1], m);
      assert StraightAt(frames[..], threshold, m, i) == (angle < threshold);
      kept, run := ScanBoundary(flags, minRun, i, angle < threshold, kept, run);
      i := i + 1;
    }
    important := FinishSelection(flags, n, minRun, kept, run);
  }

  /**
    The end of the simplifier's scan: the open run is kept when it is
    non-empty and shorter than `minRun`, the last boundary is kept, and the
    list is deduplicated and sorted.
  */
  method FinishSelection(ghost flags: seq<bool>, n: int, minRun: int, kept: seq<int>, run: seq<int>) returns (important: seq<int>)
    requires |flags| == MaxInt(n, 0)
    requires n < 1 ==> kept == [0] && run == []
    requires n >= 1 ==> Settled(flags, minRun, n, kept) && run == Range(RunFrom(flags, n), n)
    ensures important == ImportantSegments(flags, n, minRun)
  {
    var all := kept;
    if n >= 1 {
      SettleLast(flags, n, minRun, kept, run);
    }
    if 0 < |run| < minRun {
      all := all + run;
    }
    all := all + [n];
    important := SortDistinct(all);
    IncreasingUnique(important, ImportantSegments(flags, n, minRun));
  }

  /**
    One step of the simplifier's scan at interior boundary i: a straight
    boundary extends the open run; a curved one closes it, keeping the run
    when it is shorter than `minRun`, and is kept itself.
  */
  method ScanBoundary(ghost flags: seq<bool>, minRun: int, i: int, straight: bool, kept: seq<int>, run: seq<int>)
    returns (kept': seq<int>, run': seq<int>)
    requires 1 <= i < |flags| && flags[i] == straight
    requires Settled(flags, minRun, i, kept) && run == Range(RunFrom(flags, i), i)
    ensures Settled(flags, minRun, i + 1, kept') && run' == Range(RunFrom(flags, i + 1), i + 1)
  {
    if straight {
      SettleStraight(flags, minRun, i, kept, run);
      kept', run' := kept, run + [i];
    } else {
      SettleCurved(flags, minRun, i, kept, run);
      kept' := kept;
      if |run| < minRun {
        kept' := kept' + run;
      }
      run' := [];
      kept' := kept' + [i];
    }
  }

  /**
    The loop state of the simplifier before boundary i: the kept list holds
    only boundaries below i; among them the first, every curved one, and every
    straight one whose run has already been closed by a curved boundary and
    was shorter than `minRun`.
  */
  ghost predicate Settled(flags: seq<bool>, minRun: int, i: int, kept: seq<int>)
    requires 1 <= i <= |flags|
  {
    && (forall x :: x in kept ==> 0 <= x < i)
    && (forall x {:trigger x in kept} :: 0 <= x < i ==>
          (x in kept <==> x == 0 || !flags[x] || (x < RunFrom(flags, i) && RunLength(flags, x) < minRun)))
  }

  /** A straight boundary only extends the open run. */
  lemma SettleStraight(flags: seq<bool>, minRun: int, i: int, kept: seq<int>, run: seq<int>)
    requires 1 <= i < |flags| && flags[i] && Settled(flags, minRun, i, kept)
    requires run == Range(RunFrom(flags, i), i)
    ensures RunFrom(flags, i + 1) == RunFrom(flags, i)
    ensures Settled(flags, minRun, i + 1, kept)
    ensures run + [i] == Range(RunFrom(flags, i + 1), i + 1)
  {
    RangeSnoc(RunFrom(flags, i), i);
  }

  /** A curved boundary closes the open run, which is kept whole exactly when it is shorter than `minRun`, and is kept itself. */
  lemma SettleCurved(flags: seq<bool>, minRun: int, i: int, kept: seq<int>, run: seq<int>)
    requires 1 <= i < |flags| && !flags[i] && Settled(flags, minRun, i, kept)
    requires run == Range(RunFrom(flags, i), i)
    ensures RunFrom(flags, i + 1) == i + 1 && Range(RunFrom(flags, i + 1), i + 1) == []
    ensures Settled(flags, minRun, i + 1, (if |run| < minRun then kept + run else kept) + [i])
  {
    var after := (if |run| < minRun then kept + run else kept) + [i];
    forall x | x in after ensures 0 <= x < i + 1 {
      if x in run {
        var k :| 0 <= k < |run| && run[k] == x;
      }
    }
    forall x | 0 <= x < i + 1
      ensures x in after <==>
        x == 0 || !flags[x] || (x < RunFrom(flags, i + 1) && RunLength(flags, x) < minRun)
    {
      SettleCurvedAt(flags, minRun, i, kept, run, x);
    }
  }

  lemma SettleCurvedAt(flags: seq<bool>, minRun: int, i: int, kept: seq<int>, run: seq<int>, x: int)
    requires 1 <= i < |flags| && !flags[i] && Settled(flags, minRun, i, kept)
    requires run == Range(RunFrom(flags, i), i)
    requires 0 <= x <= i
    ensures x in (if |run| < minRun then kept + run else kept) + [i] <==> x == 0 || !flags[x] || RunLength(flags, x) < minRun
  {
    var s := RunFrom(flags, i);
    var after := (if |run| < minRun then kept + run else kept) + [i];
    if x == i {
      assert after[|after| - 1] == i;
    } else if x < s {
      assert x !in run;
      assert x in after <==> x in kept;
    } else {
      MaximalRun(flags, s, i - 1, x);
      assert x !in kept && flags[x];
      assert run[x - s] == x;
      assert x in after <==> |run| < minRun;
    }
  }

  /** The run still open at the end is kept whole exactly when it is non-empty and shorter than `minRun`; then the last boundary is added. */
  lemma SettleLast(flags: seq<bool>, n: int, minRun: int, kept: seq<int>, run: seq<int>)
    requires n >= 1 && |flags| == n && Settled(flags, minRun, n, kept)
    requires run == Range(RunFrom(flags, n), n)
    ensures forall x :: x in (if 0 < |run| < minRun then kept + run else kept) + [n] <==> IsImportant(flags, n, minRun, x)
  {
    var s := RunFrom(flags, n);
    ClosedRunLength(flags, s, n);
    var after := (if 0 < |run| < minRun then kept + run else kept) + [n];
    forall x
      ensures x in after <==> IsImportant(flags, n, minRun, x)
    {
      if s <= x < n {
        assert x in run <==> true by { assert run[x - s] == x; }
      }
    }
  }

  /** The first boundary of the straight stretch that is still open just before boundary i. */
  ghost function RunFrom(flags: seq<bool>, i: int): (s: int)
    requires 1 <= i <= |flags|
    ensures 1 <= s <= i
    ensures forall k :: s <= k < i ==> flags[k]
    ensures s == 1 || !flags[s - 1]
  {
    if i >= 2 && flags[i - 1] then RunStart(flags, i - 1) else i
  }

  lemma RangeSnoc(lo: int, hi: int)
    requires lo <= hi
    ensures Range(lo, hi) + [hi] == Range(lo, hi + 1)
  {
  }

  /** The integers lo..hi-1 in order. */
  function Range(lo: int, hi: int): (r: seq<int>)
    requires lo <= hi
    ensures |r| == hi - lo && forall k :: 0 <= k < |r| ==> r[k] == lo + k
  {
    seq(hi - lo, k requires 0 <= k < hi - lo => lo + k)
  }

  /**
    The kept boundaries: the simplifier's choice when `autoSimplify` is on,
    otherwise every boundary 0..n.
  */
  method ChooseSegments(frames: array<Frame>, n: nat, autoSimplify: bool, minRun: int, threshold: real, m: Maths)
    returns (keep: seq<int>)
    requires n <= 1 || n < frames.Length
    ensures keep == if autoSimplify then ImportantSegments(StraightFlags(frames[..], n, threshold, m), n, minRun) else AllSegments(n)
  {
    if autoSimplify {
      StraightFlagsAgree(frames[..], n, threshold, m);
      keep := DetectImportantSegments(frames, n, minRun, threshold, m, StraightFlags(frames[..], n, threshold, m));
    } else {
      keep := [];
      for i := 0 to n + 1
        invariant keep == AllSegments(n)[..i]
      {
        keep := keep + [i];
      }
    }
  }

  /** The base segment count for a spline: ⌈length / precision⌉, but never fewer than two. */
  function BaseSegmentCount(length: real, precision: real): (n: int)
    requires precision > 0.0
    ensures n >= 2
    ensures n as real >= length / precision
    ensures n == 2 || (n as real) < length / precision + 1.0
  {
    MaxInt(2, Ceil(length / precision))
  }
}
