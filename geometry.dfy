/** Optional values (a C# reference that may be null). */
module Wrappers {
  datatype Option<+T> = None | Some(value: T)
  {
    function GetOr(default: T): T {
      match this
      case Some(v) => v
      case None => default
    }
  }
}

/**
  Vectors, frames, the spline collaborator and the C#/s&box numeric helpers the
  generators use. Float quantities are modelled as reals. Functions the model
  cannot see (normalisation, length, trigonometry, yaw rotation) are fields of a
  `Maths` value that every generator receives, constrained only by the range
  facts in `Maths.Sane`.
*/
module Geometry {
  datatype Vec3 = Vec3(x: real, y: real, z: real)
  datatype Vec2 = Vec2(x: real, y: real)

  const Zero3 := Vec3(0.0, 0.0, 0.0)
  const Zero2 := Vec2(0.0, 0.0)

  function Add(a: Vec3, b: Vec3): Vec3 { Vec3(a.x + b.x, a.y + b.y, a.z + b.z) }
  function Sub(a: Vec3, b: Vec3): Vec3 { Vec3(a.x - b.x, a.y - b.y, a.z - b.z) }
  function Neg(a: Vec3): Vec3 { Vec3(-a.x, -a.y, -a.z) }
  function Scale(a: Vec3, k: real): Vec3 { Vec3(a.x * k, a.y * k, a.z * k) }
  function Dot(a: Vec3, b: Vec3): real { a.x * b.x + a.y * b.y + a.z * b.z }
  function Cross(a: Vec3, b: Vec3): Vec3 {
    Vec3(a.y * b.z - a.z * b.y, a.z * b.x - a.x * b.z, a.x * b.y - a.y * b.x)
  }
  function Sub2(a: Vec2, b: Vec2): Vec2 { Vec2(a.x - b.x, a.y - b.y) }

  /** Vector2.Lerp(a, b, t); every call site passes t in [0, 1], so clamping t changes nothing. */
  function Lerp2(a: Vec2, b: Vec2, t: real): Vec2 { Vec2(a.x + (b.x - a.x) * t, a.y + (b.y - a.y) * t) }

  /** MathF.PI */
  const PI: real := 3.14159265

  function RadianToDegree(r: real): real { r * (180.0 / PI) }
  function DegreeToRadian(d: real): real { d * (PI / 180.0) }

  function Abs(x: real): real { if x < 0.0 then -x else x }
  function Max(a: real, b: real): real { if a >= b then a else b }
  function Min(a: real, b: real): real { if a <= b then a else b }
  function MaxInt(a: int, b: int): int { if a >= b then a else b }

  /** `value.Clamp(lo, hi)`: the nearest value of [lo, hi]. */
  function Clamp(v: real, lo: real, hi: real): (r: real)
    requires lo <= hi
    ensures lo <= r <= hi
    ensures lo <= v <= hi ==> r == v
    ensures v < lo ==> r == lo
    ensures v > hi ==> r == hi
  {
    if v < lo then lo else if v > hi then hi else v
  }

  /** `(int)Math.Ceiling(x)`: the least integer not below x (the cast's overflow is not modelled). */
  function Ceil(x: real): (r: int)
    ensures x <= r as real < x + 1.0
  {
    -((-x).Floor)
  }

  /** Rounding toward zero, as C#'s floating-point remainder uses. */
  function Trunc(x: real): (r: int)
    ensures 0.0 <= x ==> r == x.Floor
    ensures Abs(x - r as real) < 1.0
    ensures 0.0 <= x ==> 0.0 <= r as real <= x
    ensures x < 0.0 ==> x <= r as real <= 0.0
  {
    if x >= 0.0 then x.Floor else -((-x).Floor)
  }

  /** C#'s `a % b` on floats for a positive divisor: the remainder takes the sign of the dividend. */
  function FMod(a: real, b: real): (r: real)
    requires b > 0.0
    ensures 0.0 <= a ==> 0.0 <= r < b
    ensures a < 0.0 ==> -b < r <= 0.0
    ensures r == a - b * Trunc(a / b) as real
  {
    RemainderBounds(a, b);
    a - b * Trunc(a / b) as real
  }

  lemma RemainderBounds(a: real, b: real)
    requires b > 0.0
    ensures 0.0 <= a ==> 0.0 <= a - b * Trunc(a / b) as real < b
    ensures a < 0.0 ==> -b < a - b * Trunc(a / b) as real <= 0.0
  {
    QuotientSign(a, b);
    var t := Trunc(a / b);
    if 0.0 <= a {
      FractionScaled(a, b, t as real);
    } else {
      QuotientSign(-a, b);
      assert (-a) / b == -(a / b);
      FractionScaled(-a, b, -(t as real));
    }
  }

  /** If a / b lies within one unit above the whole number t, then a - b * t lies in [0, b). */
  lemma FractionScaled(a: real, b: real, t: real)
    requires b > 0.0 && 0.0 <= a / b - t < 1.0
    ensures 0.0 <= a - b * t < b
  {
    QuotientSign(a, b);
    var f := a / b - t;
    ScaleFraction(b, f);
    assert b * f == b * (a / b) - b * t;
    assert b * f == a - b * t;
  }

  lemma QuotientSign(a: real, b: real)
    requires b > 0.0
    ensures b * (a / b) == a
    ensures 0.0 <= a ==> 0.0 <= a / b
    ensures a < 0.0 ==> a / b < 0.0
  {
  }

  lemma NonNegativeProduct(a: real, b: real)
    requires 0.0 <= a && 0.0 <= b
    ensures 0.0 <= a * b
  {
  }

  lemma ScaleFraction(b: real, f: real)
    requires b > 0.0 && 0.0 <= f < 1.0
    ensures 0.0 <= b * f < b
  {
    assert b * (1.0 - f) > 0.0;
  }

  /** An orientation frame sampled along the spline: position and the right/up/forward basis. */
  datatype Frame = Frame(position: Vec3, right: Vec3, up: Vec3, forward: Vec3)

  /**
    The external curve, seen only through samplers. `positionAt(d)` is the
    point at arc length d. `frameAt(d)` is the up-vector-mode frame there
    (sample, roll about the tangent, look-at). The rotation-minimizing mode
    carries an up vector: it starts at `startUp` (world up, or world right when
    the start tangent is nearly vertical, rolled), `transportUp(up, d0, d1)`
    moves it from d0 to d1 (double reflection, then the roll delta) and
    `frameWithUp(d, up)` is the look-at frame at d. `seamCorrect(first, last,
    i, count, f)` is frame f of a looped spline after the twist that closes
    the seam between the first and last frames.
  */
  datatype Spline = Spline(
    length: real,
    isLoop: bool,
    positionAt: real -> Vec3,
    frameAt: real -> Frame,
    startUp: Vec3,
    transportUp: (Vec3, real, real) -> Vec3,
    frameWithUp: (real, Vec3) -> Frame,
    seamCorrect: (Frame, Frame, int, int, Frame) -> Frame)
  {
    /** A curve has non-negative length and every sampler places its frame on the curve; re-orienting never moves a frame. */
    ghost predicate Sane() {
      && length >= 0.0
      && (forall d :: frameAt(d).position == positionAt(d))
      && (forall d, up :: frameWithUp(d, up).position == positionAt(d))
      && (forall a, b, i, n, f :: seamCorrect(a, b, i, n, f).position == f.position)
    }
  }

  /**
    Vector and transcendental functions of the engine: Vector3.Normal,
    Vector2.Normal, Vector3.Length, Vector3.IsNearZeroLength, MathF.Acos, float.Atan, float.Sin,
    float.Cos and Rotation.FromYaw(deg).Forward. `overZero(a)` is the float
    result of dividing a by zero (an infinity or NaN), which the model leaves
    uninterpreted.
  */
  datatype Maths = Maths(
    normal: Vec3 -> Vec3,
    normal2: Vec2 -> Vec2,
    length: Vec3 -> real,
    nearZero: Vec3 -> bool,
    acos: real -> real,
    atan: real -> real,
    sin: real -> real,
    cos: real -> real,
    yawForward: real -> Vec3,
    overZero: real -> real)
  {
    /** The only facts about these functions that the model relies on. */
    ghost predicate Sane() {
      && (forall v :: length(v) >= 0.0)
      && (forall c :: -1.0 <= c <= 1.0 ==> 0.0 <= acos(c) <= PI)
      && (forall t :: 0.0 <= t ==> 0.0 <= atan(t) < PI / 2.0)
      && (forall a :: -1.0 <= sin(a) <= 1.0)
      && (forall a :: -1.0 <= cos(a) <= 1.0)
      && cos(0.0) == 1.0
      && nearZero(normal(Zero3))
    }

    /** Vector3.DistanceBetween(a, b) */
    function Distance(a: Vec3, b: Vec3): real { length(Sub(b, a)) }

    /** The float quotient a / b: exact for a non-zero divisor, `overZero(a)` for zero. */
    function Divide(a: real, b: real): real { if b == 0.0 then overZero(a) else a / b }
  }
}
