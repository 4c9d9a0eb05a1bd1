/** The integer and clamp helpers of package vecmath (vecmath/math.go). */
module Scalars {
  import opened GoLib

  /**
   * Absolute value of a Go `int`. Negating the most negative `int` wraps
   * around to itself, so that one input keeps a negative result.
   */
  function Abs(n: Int64): (r: Int64)
    ensures n >= 0 ==> r == n
    ensures n < 0 && n != MinInt64 ==> r == -n
    ensures r >= 0 <==> n != MinInt64
    ensures n == MinInt64 ==> r == n
  {
    if n < 0 then Wrap64(-(n as int)) else n
  }

  /** The smaller argument. */
  function Min(a: Int64, b: Int64): (r: Int64)
    ensures r == a || r == b
    ensures r <= a && r <= b
  {
    if a > b then b else a
  }

  /** The larger argument. */
  function Max(a: Int64, b: Int64): (r: Int64)
    ensures r == a || r == b
    ensures a <= r && b <= r
  {
    if a > b then a else b
  }

  /** The sign of n: -1, 0 or 1. */
  function Sign(n: Int64): (r: Int64)
    ensures -1 <= r <= 1
    ensures r == 0 <==> n == 0
    ensures r == 1 <==> n > 0
  {
    if n == 0 then 0 else if n > 0 then 1 else -1
  }

  /**
   * sign(n) * abs(n) == n under Go's wrapping multiplication, for every `int`;
   * in exact arithmetic it fails only at the most negative `int`.
   */
  lemma SignTimesAbs(n: Int64)
    ensures Wrap64(Sign(n) * Abs(n)) == n
    ensures n != MinInt64 ==> Sign(n) * Abs(n) == n
  {
  }

  /**
   * math.Max(min, math.Min(max, value)): inside [min, max] when that range is
   * non-empty, the value itself when it already lies there, and min when the
   * bounds are crossed.
   */
  function Clamp(value: real, min: real, max: real): (r: real)
    ensures min <= max ==> min <= r <= max
    ensures min <= value <= max ==> r == value
    ensures min <= max && value < min ==> r == min
    ensures min <= max && max < value ==> r == max
    ensures min > max ==> r == min
  {
    GoLib.Max(min, GoLib.Min(max, value))
  }

  /**
   * Linear interpolation from min to max at parameter t clamped to [0, 1]:
   * min for t <= 0, max for t >= 1, and always between the two ends.
   */
  function Interpolate(min: real, max: real, t: real): (r: real)
    ensures t <= 0.0 ==> r == min
    ensures t >= 1.0 ==> r == max
    ensures 0.0 <= t <= 1.0 ==> r == min + (max - min) * t
    ensures min <= max ==> min <= r <= max
    ensures max <= min ==> max <= r <= min
  {
    var c := Clamp(t, 0.0, 1.0);
    var r := min + (max - min) * c;
    Between(min, max, c, r);
    r
  }

  /** A point of the segment from min to max at a parameter in [0, 1] lies between its ends. */
  lemma Between(min: real, max: real, c: real, r: real)
    requires 0.0 <= c <= 1.0
    requires r == min + (max - min) * c
    ensures c == 0.0 ==> r == min
    ensures c == 1.0 ==> r == max
    ensures min <= max ==> min <= r <= max
    ensures max <= min ==> max <= r <= min
  {
    assert (max - min) * c + (max - min) * (1.0 - c) == max - min;
    if min <= max {
      MulNonNegative(max - min, c);
      MulNonNegative(max - min, 1.0 - c);
    } else {
      MulNonNegative(min - max, c);
      MulNonNegative(min - max, 1.0 - c);
      assert (min - max) * c == -((max - min) * c);
      assert (min - max) * (1.0 - c) == -((max - min) * (1.0 - c));
    }
  }

  /** The product of two non-negative reals is non-negative (kept apart so callers need no non-linear search). */
  lemma MulNonNegative(a: real, b: real)
    requires a >= 0.0 && b >= 0.0
    ensures a * b >= 0.0
  {
  }
}
/**
 * The package-private helpers of package poly (poly/math.go). The file is a
 * line-for-line copy of vecmath/math.go, so each helper is the vecmath one.
 */
module PolyMath {
  import opened GoLib
  import Scalars

  function Abs(n: Int64): (r: Int64)
    ensures r >= 0 <==> n != MinInt64
    ensures n != MinInt64 ==> r == n || r == -n
    ensures n == MinInt64 ==> r == n
  {
    Scalars.Abs(n)
  }

  function Min(a: Int64, b: Int64): (r: Int64)
    ensures r == a || r == b
    ensures r <= a && r <= b
  {
    Scalars.Min(a, b)
  }

  function Max(a: Int64, b: Int64): (r: Int64)
    ensures r == a || r == b
    ensures a <= r && b <= r
  {
    Scalars.Max(a, b)
  }

  function Sign(n: Int64): (r: Int64)
    ensures -1 <= r <= 1
    ensures r == 0 <==> n == 0
    ensures r == 1 <==> n > 0
    ensures Wrap64(r * Abs(n)) == n
  {
    Scalars.SignTimesAbs(n);
    Scalars.Sign(n)
  }

  function Clamp(value: real, min: real, max: real): (r: real)
    ensures min <= max ==> min <= r <= max
    ensures min <= value <= max ==> r == value
    ensures min <= max && value < min ==> r == min
    ensures min <= max && max < value ==> r == max
    ensures min > max ==> r == min
  {
    Scalars.Clamp(value, min, max)
  }

  function Interpolate(min: real, max: real, t: real): (r: real)
    ensures t <= 0.0 ==> r == min
    ensures t >= 1.0 ==> r == max
    ensures min <= max ==> min <= r <= max
    ensures max <= min ==> max <= r <= min
  {
    Scalars.Interpolate(min, max, t)
  }
}
