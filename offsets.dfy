module MarkingOffsets {
  /** Offset of marking k of n from the centre line over total width w. */
  function MarkingOffset(k: int, n: nat, w: real): real {
    (k + 1) as real * (w / (n + 1) as real) - w * 0.5
  }

  /**
    The markings are spread evenly and strictly inside the total width: each
    lies strictly between −w/2 and w/2, the next one is w/(n+1) further right,
    and marking k mirrors marking n−1−k about the centre line.
  */
  lemma OffsetsSpread(k: int, n: nat, w: real)
    requires 0 <= k < n && w > 0.0
    ensures -w * 0.5 < MarkingOffset(k, n, w) < w * 0.5
    ensures k + 1 < n ==> MarkingOffset(k + 1, n, w) == MarkingOffset(k, n, w) + w / (n + 1) as real
    ensures k + 1 < n ==> MarkingOffset(k, n, w) < MarkingOffset(k + 1, n, w)
    ensures MarkingOffset(n - 1 - k, n, w) == -MarkingOffset(k, n, w)
  {
    var s := w / (n + 1) as real;
    SpacingTimesCount(w, n);
    PositiveProduct((k + 1) as real, s);
    PositiveProduct((n - k) as real, s);
    MultiplySum((k + 1) as real, (n - k) as real, s);
    MultiplySum((k + 1) as real, 1.0, s);
  }

  lemma SpacingTimesCount(w: real, n: nat)
    requires w > 0.0
    ensures w / (n + 1) as real > 0.0
    ensures (n + 1) as real * (w / (n + 1) as real) == w
  {
  }

  lemma PositiveProduct(a: real, b: real)
    requires a > 0.0 && b > 0.0
    ensures a * b > 0.0
  {
  }

  lemma MultiplySum(a: real, b: real, s: real)
    ensures (a + b) * s == a * s + b * s
  {
  }
}
