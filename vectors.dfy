/** Three-component vectors of package vecmath (vecmath/vector3.go). */
module Vectors {
  import opened GoLib
  import Scalars

  /** A point, direction, texture coordinate or normal; every operation returns a new value. */
  datatype Vector3 = Vector3(x: real, y: real, z: real) {

    function Add(v: Vector3): Vector3 {
      Vector3(x + v.x, y + v.y, z + v.z)
    }

    function Sub(v: Vector3): Vector3 {
      Vector3(x - v.x, y - v.y, z - v.z)
    }

    function Mul(v: Vector3): Vector3 {
      Vector3(x * v.x, y * v.y, z * v.z)
    }

    /** Componentwise division; Go would yield infinities for a zero component. */
    function Div(v: Vector3): Vector3
      requires v.x != 0.0 && v.y != 0.0 && v.z != 0.0
    {
      Vector3(x / v.x, y / v.y, z / v.z)
    }

    function AddScalar(f: real): Vector3 {
      Vector3(x + f, y + f, z + f)
    }

    function SubScalar(f: real): Vector3 {
      Vector3(x - f, y - f, z - f)
    }

    function MulScalar(f: real): Vector3 {
      Vector3(x * f, y * f, z * f)
    }

    /** Multiplication by the reciprocal of f, which must not be zero. */
    function DivScalar(f: real): Vector3
      requires f != 0.0
    {
      var invF := 1.0 / f;
      Vector3(x * invF, y * invF, z * invF)
    }

    function Dot(v: Vector3): real {
      x * v.x + y * v.y + z * v.z
    }

    function Cross(v: Vector3): Vector3 {
      Vector3(y * v.z - z * v.y, z * v.x - x * v.z, x * v.y - y * v.x)
    }

    /** The squared length: never negative, and zero exactly for the zero vector. */
    function LengthSq(): (r: real)
      ensures r >= 0.0
      ensures r == 0.0 <==> this == Zero()
    {
      SumOfSquares(x, y, z);
      x * x + y * y + z * z
    }

    /** The length: zero exactly for the zero vector. */
    function Length(): (r: real)
      ensures r >= 0.0
      ensures r == 0.0 <==> this == Zero()
    {
      Sqrt(LengthSq())
    }

    /**
     * The vector divided by its length. The zero vector has no direction (Go
     * would yield NaN components), so it is excluded; the result scaled back by
     * the length is the vector itself.
     */
    function Normalize(): (r: Vector3)
      requires this != Zero()
      ensures r.MulScalar(Length()) == this
    {
      var invLen := 1.0 / Length();
      ReciprocalCancels(x, Length());
      ReciprocalCancels(y, Length());
      ReciprocalCancels(z, Length());
      Vector3(x * invLen, y * invLen, z * invLen)
    }

    function Negate(): Vector3 {
      Vector3(-x, -y, -z)
    }

    /**
     * Every component clamped into [min, max]: kept when inside, moved to the
     * nearer bound when outside, and min when the bounds are crossed.
     */
    function Clamp(min: real, max: real): (r: Vector3)
      ensures min <= max ==> min <= r.x <= max && min <= r.y <= max && min <= r.z <= max
      ensures min <= x <= max ==> r.x == x
      ensures min <= y <= max ==> r.y == y
      ensures min <= z <= max ==> r.z == z
      ensures min <= max && x < min ==> r.x == min
      ensures min <= max && max < x ==> r.x == max
      ensures min <= max && y < min ==> r.y == min
      ensures min <= max && max < y ==> r.y == max
      ensures min <= max && z < min ==> r.z == min
      ensures min <= max && max < z ==> r.z == max
      ensures min > max ==> r == Vector3(min, min, min)
    {
      Vector3(Scalars.Clamp(x, min, max), Scalars.Clamp(y, min, max), Scalars.Clamp(z, min, max))
    }

    /**
     * The mirror image of this vector about the normal n, normalised. The
     * mirror image must not be the zero vector.
     */
    function Reflected(n: Vector3): (r: Vector3)
      requires Mirror(this, n) != Zero()
      ensures r.MulScalar(Mirror(this, n).Length()) == Mirror(this, n)
    {
      n.MulScalar(2.0 * Dot(n)).Sub(this).Normalize()
    }
  }

  /** The un-normalised reflection 2(v.n)n - v that Reflected normalises. */
  function Mirror(v: Vector3, n: Vector3): Vector3 {
    n.MulScalar(2.0 * v.Dot(n)).Sub(v)
  }

  function Zero(): Vector3 { Vector3(0.0, 0.0, 0.0) }

  function Unit(): Vector3 { Vector3(1.0, 1.0, 1.0) }

  function UnitX(): Vector3 { Vector3(1.0, 0.0, 0.0) }

  function UnitY(): Vector3 { Vector3(0.0, 1.0, 0.0) }

  function UnitZ(): Vector3 { Vector3(0.0, 0.0, 1.0) }

  function NewVector3(x: real, y: real, z: real): Vector3 { Vector3(x, y, z) }

  // ---------------------------------------------------------------------------
  // Arithmetic facts kept in small lemmas so that the solver needs no
  // non-linear search elsewhere.

  /** A square is never negative, and only the square of zero is zero. */
  lemma SquareZero(a: real)
    ensures a * a >= 0.0
    ensures a * a == 0.0 ==> a == 0.0
  {
    if a != 0.0 {
      assert a * a * (1.0 / a) == a;
    }
  }

  /** A sum of three squares is never negative, and zero only when all three are. */
  lemma SumOfSquares(a: real, b: real, c: real)
    ensures a * a + b * b + c * c >= 0.0
    ensures a * a + b * b + c * c == 0.0 ==> a == 0.0 && b == 0.0 && c == 0.0
  {
    SquareZero(a);
    SquareZero(b);
    SquareZero(c);
  }

  lemma ReciprocalCancels(a: real, f: real)
    requires f != 0.0
    ensures a * (1.0 / f) * f == a
  {
    assert (1.0 / f) * f == 1.0;
    assert a * (1.0 / f) * f == a * ((1.0 / f) * f);
  }

  // ---------------------------------------------------------------------------
  // Algebraic laws

  /** Add and Sub undo each other, and a vector minus itself is Zero(). */
  lemma AddSubInverse(v: Vector3, w: Vector3)
    ensures v.Add(w).Sub(w) == v
    ensures v.Sub(w).Add(w) == v
    ensures v.Sub(v) == Zero()
  {
  }

  /** Negation is an involution and the additive inverse. */
  lemma NegateInvolutive(v: Vector3)
    ensures v.Negate().Negate() == v
    ensures v.Add(v.Negate()) == Zero()
    ensures v.Negate() == Zero().Sub(v)
  {
  }

  /** Dividing by a non-zero scalar undoes multiplying by it. */
  lemma MulScalarDivScalar(v: Vector3, f: real)
    requires f != 0.0
    ensures v.MulScalar(f).DivScalar(f) == v
  {
    ReciprocalCancelsLeft(v.x, f);
    ReciprocalCancelsLeft(v.y, f);
    ReciprocalCancelsLeft(v.z, f);
  }

  lemma ReciprocalCancelsLeft(a: real, f: real)
    requires f != 0.0
    ensures a * f * (1.0 / f) == a
  {
    assert f * (1.0 / f) == 1.0;
    assert a * f * (1.0 / f) == a * (f * (1.0 / f));
  }

  /** Componentwise division undoes componentwise multiplication. */
  lemma MulDiv(v: Vector3, w: Vector3)
    requires w.x != 0.0 && w.y != 0.0 && w.z != 0.0
    ensures v.Mul(w).Div(w) == v
  {
  }

  /** The dot product is symmetric, and a vector dotted with itself is its squared length. */
  lemma DotSymmetric(v: Vector3, w: Vector3)
    ensures v.Dot(w) == w.Dot(v)
    ensures v.Dot(v) == v.LengthSq() >= 0.0
  {
  }

  /** The cross product is orthogonal to both of its factors. */
  lemma CrossOrthogonal(v: Vector3, w: Vector3)
    ensures v.Cross(w).Dot(v) == 0.0
    ensures v.Cross(w).Dot(w) == 0.0
  {
    var c := v.Cross(w);
    assert c.Dot(v) == (v.y * w.z - v.z * w.y) * v.x + (v.z * w.x - v.x * w.z) * v.y + (v.x * w.y - v.y * w.x) * v.z;
    assert c.Dot(w) == (v.y * w.z - v.z * w.y) * w.x + (v.z * w.x - v.x * w.z) * w.y + (v.x * w.y - v.y * w.x) * w.z;
  }

  /** Swapping the factors of a cross product negates it. */
  lemma CrossAntiCommutative(v: Vector3, w: Vector3)
    ensures v.Cross(w) == w.Cross(v).Negate()
  {
  }

  /** Parallel vectors have a zero cross product. */
  lemma CrossParallel(v: Vector3, k: real)
    ensures v.Cross(v.MulScalar(k)) == Zero()
    ensures v.MulScalar(k).Cross(v) == Zero()
  {
    assert v.y * (v.z * k) - v.z * (v.y * k) == 0.0;
    assert v.z * (v.x * k) - v.x * (v.z * k) == 0.0;
    assert v.x * (v.y * k) - v.y * (v.x * k) == 0.0;
  }

  /** A normalised vector points the same way as the original. */
  lemma NormalizeParallel(v: Vector3)
    requires v != Zero()
    ensures v.Normalize().Cross(v) == Zero()
  {
    CrossParallel(v, 1.0 / v.Length());
  }

  /**
   * For a unit normal n, the mirror image of v keeps both its angle with n
   * and its squared length.
   */
  lemma MirrorIsReflection(v: Vector3, n: Vector3)
    requires n.LengthSq() == 1.0
    ensures Mirror(v, n).Dot(n) == v.Dot(n)
    ensures Mirror(v, n).LengthSq() == v.LengthSq()
  {
    var d := v.Dot(n);
    var m := Mirror(v, n);
    assert m == Vector3(n.x * (2.0 * d) - v.x, n.y * (2.0 * d) - v.y, n.z * (2.0 * d) - v.z);
    assert m.Dot(n) == 2.0 * d * n.LengthSq() - d;
    assert m.LengthSq() == 4.0 * d * d * n.LengthSq() - 4.0 * d * d + v.LengthSq();
  }
}
