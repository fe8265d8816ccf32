/**
  Dashed road markings (the road component's lines and lanes). Every marking
  keeps a distance accumulator that runs on from segment to segment; each
  segment is walked in steps that end at the end of the current dash, at the
  end of the dash cycle or at the end of the segment, and a quad is written for
  every step taken inside a dash. A counting pass and a writing pass walk the
  same steps, so the declared buffers are filled exactly.

  The lines and the lanes differ only in how a step is chosen: the lines snap
  the cycle position to the cycle's ends and never step less than 0.01, the
  lanes step exactly to the next boundary.
*/
module Dashes {
  import opened Geometry

  /** A dash cycle: its period (`DashSpacing`) and the fraction of it that is drawn. */
  datatype Pattern = Pattern(spacing: real, fill: real)
  {
    function DashLength(): real { spacing * fill }
  }

  /** The stepping rule of the lines, or of the lanes. */
  datatype Rule = LineRule | LaneRule

  /** A segment is walked while more than this much of it remains. */
  const MinRemaining: real := 0.001
  /** The lines' snapping tolerance for the cycle position. */
  const SnapTolerance: real := 0.0001
  /** The lines' shortest step. */
  const MinStep: real := 0.01

  /** One step of a walk: whether it lies inside a dash, and how far it goes. */
  datatype Step = Step(inDash: bool, length: real)

  /** Position of the accumulator within its cycle; 0 when there is no cycle. */
  function CyclePos(p: Pattern, pos: real): (c: real)
    ensures p.spacing > 0.0 && pos >= 0.0 ==> 0.0 <= c < p.spacing
  {
    if p.spacing > 0.0 then FMod(pos, p.spacing) else 0.0
  }

  /**
    The lines' step: the cycle position is snapped to 0 or to the spacing when
    within the tolerance, a dash is entered only more than the tolerance before
    its end, and the step is at least 0.01 but never beyond the segment's end.
    Without a cycle the whole rest of the segment is one dash.
  */
  function LineStep(p: Pattern, pos: real, remaining: real): (s: Step)
    ensures Min(MinStep, remaining) <= s.length <= remaining
    ensures p.spacing <= 0.0 ==> s.inDash && s.length == remaining
  {
    var raw := CyclePos(p, pos);
    var low := if raw < SnapTolerance then 0.0 else raw;
    var c := if p.spacing > 0.0 && p.spacing - low < SnapTolerance then p.spacing else low;
    var inDash := p.spacing <= 0.0 || c <= p.DashLength() - SnapTolerance;
    var wanted := if p.spacing <= 0.0 then remaining
                  else if inDash then p.DashLength() - c
                  else p.spacing - c;
    Step(inDash, Min(Max(wanted, MinStep), remaining))
  }

  /**
    The lanes' step: to the end of the current dash when inside one, otherwise
    to the end of the cycle, and never beyond the segment's end. Without a
    cycle the whole rest of the segment is one dash.
  */
  function LaneStep(p: Pattern, pos: real, remaining: real): (s: Step)
    ensures s.length <= remaining
    ensures pos >= 0.0 && remaining > 0.0 ==> 0.0 < s.length
    ensures p.spacing <= 0.0 ==> s.inDash && s.length == remaining
    ensures p.spacing > 0.0 && pos >= 0.0 && s.length < remaining ==>
              s.length == Gap(p, pos) && s.inDash == (CyclePos(p, pos) < p.DashLength())
  {
    var c := CyclePos(p, pos);
    var inDash := p.spacing <= 0.0 || c < p.DashLength();
    var len := if p.spacing <= 0.0 then remaining
               else if inDash then Min(p.DashLength() - c, remaining)
               else Min(p.spacing - c, remaining);
    Step(inDash, len)
  }

  function StepOf(rule: Rule, p: Pattern, pos: real, remaining: real): (s: Step)
    ensures s.length <= remaining
    ensures pos >= 0.0 && remaining > 0.0 ==> 0.0 < s.length
    ensures p.spacing <= 0.0 ==> s.inDash && s.length == remaining
  {
    match rule
    case LineRule => LineStep(p, pos, remaining)
    case LaneRule => LaneStep(p, pos, remaining)
  }

  /** Distance from `pos` to the next boundary: the end of the current dash, or else the end of the cycle. */
  function Gap(p: Pattern, pos: real): real
    requires p.spacing > 0.0
  {
    var c := CyclePos(p, pos);
    if c < p.DashLength() then p.DashLength() - c else p.spacing - c
  }

  /**
    The shortest distance between two boundaries of the cycle: the whole
    spacing when the cycle is all dash or all gap, otherwise the shorter of
    the dash and the gap.
  */
  function MinGap(p: Pattern): (d: real)
    requires p.spacing > 0.0
    ensures d > 0.0
  {
    var l := p.DashLength();
    if l <= 0.0 || l >= p.spacing then p.spacing else Min(l, p.spacing - l)
  }

  /** The accumulator sits on a boundary: the next one is at least a whole dash or gap away. */
  predicate Aligned(p: Pattern, pos: real) {
    p.spacing <= 0.0 || Gap(p, pos) >= MinGap(p)
  }

  /**
    A termination measure of the walk: for the lines the remaining length in
    thousandths, as every step is longer than that; for the lanes the
    remaining length in shortest gaps, plus one for an unaligned start.
  */
  function Measure(rule: Rule, p: Pattern, pos: real, remaining: real): real {
    match rule
    case LineRule => remaining * 1000.0
    case LaneRule =>
      (if p.spacing > 0.0 then remaining / MinGap(p) else 0.0) + (if Aligned(p, pos) then 0.0 else 1.0)
  }

  /** Walking k whole cycles and then x into the next leaves the cycle position at x. */
  lemma CycleShift(k: int, x: real, b: real)
    requires b > 0.0 && k >= 0 && 0.0 <= x < b
    ensures FMod(k as real * b + x, b) == x
  {
    var a := k as real * b + x;
    QuotientBelowOne(x, b);
    QuotientShift(k, x, b);
    WholePart(k, x / b);
  }

  lemma QuotientBelowOne(x: real, b: real)
    requires b > 0.0 && 0.0 <= x < b
    ensures 0.0 <= x / b < 1.0
  {
    QuotientSign(x, b);
    if x / b >= 1.0 {
      assert x - b == b * (x / b - 1.0);
      NonNegativeProduct(b, x / b - 1.0);
    }
  }

  lemma QuotientShift(k: int, x: real, b: real)
    requires b > 0.0
    ensures (k as real * b + x) / b == k as real + x / b
  {
  }

  lemma WholePart(k: int, f: real)
    requires k >= 0 && 0.0 <= f < 1.0
    ensures Trunc(k as real + f) == k
  {
  }

  /** A quotient is at least t when the dividend is at least t divisors. */
  lemma QuotientAtLeast(x: real, b: real, t: real)
    requires b > 0.0 && x >= t * b
    ensures x / b >= t
  {
  }

  /** Division by a positive number distributes over a difference. */
  lemma QuotientDifference(a: real, s: real, d: real)
    requires d > 0.0
    ensures (a - s) / d == a / d - s / d
  {
  }

  /**
    The lanes never step past a boundary: a step that does not finish the
    segment ends on a boundary, so the next step is a whole dash or gap long.
    For a fill ratio in [0, 1] the boundary is the start of a cycle or the end
    of its dash.
  */
  lemma LaneStepLands(p: Pattern, pos: real, remaining: real)
    requires p.spacing > 0.0 && pos >= 0.0
    requires LaneStep(p, pos, remaining).length < remaining
    ensures var next := pos + LaneStep(p, pos, remaining).length;
            && Aligned(p, next)
            && (0.0 <= p.DashLength() <= p.spacing ==> CyclePos(p, next) == 0.0 || CyclePos(p, next) == p.DashLength())
  {
    NextBoundary(p.spacing, p.DashLength(), pos);
  }

  /** `NextBoundary` for plain numbers: `sp` the spacing, `l` the dash length. */
  lemma NextBoundary(sp: real, l: real, pos: real)
    requires sp > 0.0 && pos >= 0.0
    ensures var c := FMod(pos, sp);
            var next := pos + (if c < l then l - c else sp - c);
            var c' := FMod(next, sp);
            && (if c' < l then l - c' else sp - c') >= (if l <= 0.0 || l >= sp then sp else Min(l, sp - l))
            && (0.0 <= l <= sp ==> c' == 0.0 || c' == l)
  {
    if FMod(pos, sp) < l {
      LeaveDash(sp, l, pos);
    } else {
      LeaveGap(sp, l, pos);
    }
  }

  /** Stepping to the end of the current dash. */
  lemma LeaveDash(sp: real, l: real, pos: real)
    requires sp > 0.0 && pos >= 0.0 && FMod(pos, sp) < l
    ensures var next := pos + (l - FMod(pos, sp));
            var c' := FMod(next, sp);
            && (l < sp ==> c' == l)
            && (l >= sp ==> 0.0 <= c' < l && l - c' >= sp)
  {
    var c := FMod(pos, sp);
    var k := Trunc(pos / sp);
    QuotientSign(pos, sp);
    assert pos == k as real * sp + c;
    if l < sp {
      CycleShift(k, l, sp);
    } else {
      LongDash(k, l, sp);
    }
  }

  /** Stepping over the rest of the gap to the start of the next cycle. */
  lemma LeaveGap(sp: real, l: real, pos: real)
    requires sp > 0.0 && pos >= 0.0
    ensures FMod(pos + (sp - FMod(pos, sp)), sp) == 0.0
  {
    var c := FMod(pos, sp);
    var k := Trunc(pos / sp);
    QuotientSign(pos, sp);
    assert pos == k as real * sp + c;
    var j := k + 1;
    NextMultiple(k, sp);
    CycleStart(j, sp);
    assert pos + (sp - c) == j as real * sp;
    assert FMod(pos + (sp - c), sp) == FMod(j as real * sp, sp);
  }

  /** A whole number of cycles leaves the cycle position at zero. */
  lemma CycleStart(j: int, sp: real)
    requires j >= 0 && sp > 0.0
    ensures FMod(j as real * sp, sp) == 0.0
  {
    CycleShift(j, 0.0, sp);
    assert j as real * sp + 0.0 == j as real * sp;
  }

  lemma NextMultiple(k: int, sp: real)
    ensures (k + 1) as real * sp == k as real * sp + sp
  {
  }

  /** A dash at least a cycle long, started at a cycle's start, ends at least a whole cycle before its next end. */
  lemma LongDash(k: int, l: real, sp: real)
    requires k >= 0 && sp > 0.0 && l >= sp
    ensures var next := k as real * sp + l;
            var c' := FMod(next, sp);
            0.0 <= c' < l && l - c' >= sp
  {
    var next := k as real * sp + l;
    var c' := FMod(next, sp);
    var k' := Trunc(next / sp);
    NonNegativeProduct(k as real, sp);
    QuotientSign(next, sp);
    QuotientAtLeast(next, sp, k as real + 1.0);
    assert k' >= k + 1;
    assert l - c' == (k' - k) as real * sp;
    NonNegativeProduct((k' - k - 1) as real, sp);
  }

  /**
    Every step that leaves more than the threshold to walk lowers the measure
    by at least one, and no step goes backwards: the walk terminates, for both
    rules.
  */
  lemma Progress(rule: Rule, p: Pattern, pos: real, remaining: real)
    requires pos >= 0.0 && remaining > MinRemaining
    ensures StepOf(rule, p, pos, remaining).length > 0.0
    ensures var s := StepOf(rule, p, pos, remaining);
            remaining - s.length > MinRemaining ==>
              0.0 <= Measure(rule, p, pos + s.length, remaining - s.length) <= Measure(rule, p, pos, remaining) - 1.0
  {
    if rule.LaneRule? && p.spacing > 0.0 {
      LaneProgress(p, pos, remaining);
    }
  }

  /** The lanes' part of `Progress` when there is a cycle. */
  lemma LaneProgress(p: Pattern, pos: real, remaining: real)
    requires p.spacing > 0.0 && pos >= 0.0 && remaining > MinRemaining
    ensures var s := LaneStep(p, pos, remaining);
            remaining - s.length > MinRemaining ==>
              0.0 <= Measure(LaneRule, p, pos + s.length, remaining - s.length) <= Measure(LaneRule, p, pos, remaining) - 1.0
  {
    var s := LaneStep(p, pos, remaining);
    if remaining - s.length > MinRemaining {
      LaneStepLands(p, pos, remaining);
      ShorterInGaps(remaining, s.length, MinGap(p));
    }
  }

  /** Walking `len` of `rem` leaves no more shortest gaps `d` to walk, and at least one fewer when len >= d. */
  lemma ShorterInGaps(rem: real, len: real, d: real)
    requires d > 0.0 && 0.0 <= len <= rem
    ensures 0.0 <= (rem - len) / d <= rem / d
    ensures len >= d ==> (rem - len) / d <= rem / d - 1.0
  {
    QuotientDifference(rem, len, d);
    QuotientSign(rem - len, d);
    QuotientSign(len, d);
    if len >= d {
      QuotientAtLeast(len, d, 1.0);
    }
  }

  /** A step taken inside a dash: where on the accumulator it starts, and its length. */
  datatype Dash = Dash(start: real, length: real)

  /** The result of walking a segment: its dashes, the accumulator afterwards and the length left unwalked. */
  datatype Walk = Walk(dashes: seq<Dash>, end: real, rest: real)

  /** The steps the loop `while (remaining > 0.001)` takes over one segment, from accumulator `pos`. */
  function WalkSegment(rule: Rule, p: Pattern, pos: real, remaining: real): (w: Walk)
    requires pos >= 0.0
    ensures pos <= w.end
    decreases if remaining > MinRemaining then 1 else 0, Measure(rule, p, pos, remaining)
  {
    if remaining <= MinRemaining then Walk([], pos, remaining)
    else
      var s := StepOf(rule, p, pos, remaining);
      Progress(rule, p, pos, remaining);
      var w := WalkSegment(rule, p, pos + s.length, remaining - s.length);
      if s.inDash then Walk([Dash(pos, s.length)] + w.dashes, w.end, w.rest) else w
  }

  /** The number of steps the loop takes over a segment from accumulator `pos`. */
  function StepsLeft(rule: Rule, p: Pattern, pos: real, remaining: real): nat
    requires pos >= 0.0
    decreases if remaining > MinRemaining then 1 else 0, Measure(rule, p, pos, remaining)
  {
    if remaining <= MinRemaining then 0
    else
      var s := StepOf(rule, p, pos, remaining);
      Progress(rule, p, pos, remaining);
      1 + StepsLeft(rule, p, pos + s.length, remaining - s.length)
  }

  /**
    One turn of the loop: the step is positive, the walk from here is the
    step's dash (when it lies in one) followed by the walk from after the
    step, and one step fewer is left.
  */
  lemma WalkStep(rule: Rule, p: Pattern, pos: real, remaining: real)
    requires pos >= 0.0 && remaining > MinRemaining
    ensures var s := StepOf(rule, p, pos, remaining);
            var w := WalkSegment(rule, p, pos, remaining);
            var after := WalkSegment(rule, p, pos + s.length, remaining - s.length);
            && 0.0 < s.length
            && w.end == after.end
            && w.dashes == (if s.inDash then [Dash(pos, s.length)] + after.dashes else after.dashes)
            && StepsLeft(rule, p, pos + s.length, remaining - s.length) < StepsLeft(rule, p, pos, remaining)
  {
    Progress(rule, p, pos, remaining);
  }

  /** Once no more than the threshold remains, the loop stops: no dashes, and the accumulator stays. */
  lemma WalkDone(rule: Rule, p: Pattern, pos: real, remaining: real)
    requires pos >= 0.0 && remaining <= MinRemaining
    ensures WalkSegment(rule, p, pos, remaining) == Walk([], pos, remaining)
  {
  }

  /**
    The walk consumes the segment up to a remainder no longer than the
    threshold: the accumulator grows by the segment length less that
    remainder, and the remainder is never negative.
  */
  lemma {:induction false} WalkAdvance(rule: Rule, p: Pattern, pos: real, remaining: real)
    requires pos >= 0.0 && remaining >= 0.0
    ensures var w := WalkSegment(rule, p, pos, remaining);
            && w.end == pos + remaining - w.rest
            && 0.0 <= w.rest <= MinRemaining
            && (remaining <= MinRemaining ==> w.rest == remaining)
    decreases if remaining > MinRemaining then 1 else 0, Measure(rule, p, pos, remaining)
  {
    if remaining > MinRemaining {
      var s := StepOf(rule, p, pos, remaining);
      Progress(rule, p, pos, remaining);
      WalkAdvance(rule, p, pos + s.length, remaining - s.length);
    }
  }

  /**
    Without a cycle a segment is one dash: the whole segment when it is longer
    than the threshold, nothing otherwise.
  */
  lemma SolidSegment(rule: Rule, p: Pattern, pos: real, remaining: real)
    requires pos >= 0.0 && p.spacing <= 0.0
    ensures var w := WalkSegment(rule, p, pos, remaining);
            && |w.dashes| == (if remaining > MinRemaining then 1 else 0)
            && (remaining > MinRemaining ==> w.dashes[0] == Dash(pos, remaining) && w.end == pos + remaining)
  {
    if remaining > MinRemaining {
      assert StepOf(rule, p, pos, remaining) == Step(true, remaining);
      assert WalkSegment(rule, p, pos + remaining, 0.0) == Walk([], pos + remaining, 0.0);
    }
  }

  /**
    Dashes laid along the accumulator between `from` and `to`: each has a
    positive length, lies within the range, and ends no later than the next
    one starts.
  */
  ghost predicate Laid(ds: seq<Dash>, from: real, to: real) {
    && from <= to
    && (forall j :: 0 <= j < |ds| ==> 0.0 < ds[j].length && from <= ds[j].start && ds[j].start + ds[j].length <= to)
    && (forall j :: 0 <= j < |ds| - 1 ==> ds[j].start + ds[j].length <= ds[j + 1].start)
  }

  /** A dash followed by dashes laid after it are laid from its start. */
  lemma LaidCons(d: Dash, ds: seq<Dash>, to: real)
    requires 0.0 < d.length && Laid(ds, d.start + d.length, to)
    ensures Laid([d] + ds, d.start, to)
  {
    var all := [d] + ds;
    forall j | 0 <= j < |all| - 1
      ensures all[j].start + all[j].length <= all[j + 1].start
    {
      if j > 0 {
        assert all[j] == ds[j - 1] && all[j + 1] == ds[j];
      }
    }
  }

  /** Dashes laid over two consecutive ranges are laid over their union. */
  lemma LaidAppend(a: seq<Dash>, b: seq<Dash>, x: real, y: real, z: real)
    requires Laid(a, x, y) && Laid(b, y, z)
    ensures Laid(a + b, x, z)
  {
    var all := a + b;
    forall j | 0 <= j < |all| - 1
      ensures all[j].start + all[j].length <= all[j + 1].start
    {
      if j < |a| - 1 {
        assert all[j] == a[j] && all[j + 1] == a[j + 1];
      } else if j == |a| - 1 {
        assert all[j] == a[j] && all[j + 1] == b[0];
      } else {
        assert all[j] == b[j - |a|] && all[j + 1] == b[j - |a| + 1];
      }
    }
  }

  /** The dashes of a walk are laid in order between its start and end accumulators. */
  lemma {:induction false} WalkLaid(rule: Rule, p: Pattern, pos: real, remaining: real)
    requires pos >= 0.0
    ensures Laid(WalkSegment(rule, p, pos, remaining).dashes, pos, WalkSegment(rule, p, pos, remaining).end)
    decreases if remaining > MinRemaining then 1 else 0, Measure(rule, p, pos, remaining)
  {
    if remaining > MinRemaining {
      var s := StepOf(rule, p, pos, remaining);
      Progress(rule, p, pos, remaining);
      var next := pos + s.length;
      WalkLaid(rule, p, next, remaining - s.length);
      var w := WalkSegment(rule, p, next, remaining - s.length);
      if s.inDash {
        LaidCons(Dash(pos, s.length), w.dashes, w.end);
      } else {
        assert Laid(w.dashes, pos, w.end);
      }
    }
  }
}
