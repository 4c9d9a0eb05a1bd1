/**
 * Four-by-four matrices of package vecmath (vecmath/matrix4.go), together
 * with TransformCoordinate (vecmath/vector3.go), which needs them.
 *
 * A matrix acts on a point (x, y, z) as on the column (x, y, z, 1); the last
 * row gives the homogeneous w of the result.
 */
module Matrices {
  import opened GoLib
  import opened Vectors

  datatype Matrix4 = Matrix4(
    m00: real, m01: real, m02: real, m03: real,
    m10: real, m11: real, m12: real, m13: real,
    m20: real, m21: real, m22: real, m23: real,
    m30: real, m31: real, m32: real, m33: real)
  {
    function Add(n: Matrix4): Matrix4 {
      Matrix4(
        m00 + n.m00, m01 + n.m01, m02 + n.m02, m03 + n.m03,
        m10 + n.m10, m11 + n.m11, m12 + n.m12, m13 + n.m13,
        m20 + n.m20, m21 + n.m21, m22 + n.m22, m23 + n.m23,
        m30 + n.m30, m31 + n.m31, m32 + n.m32, m33 + n.m33)
    }

    function Sub(n: Matrix4): Matrix4 {
      Matrix4(
        m00 - n.m00, m01 - n.m01, m02 - n.m02, m03 - n.m03,
        m10 - n.m10, m11 - n.m11, m12 - n.m12, m13 - n.m13,
        m20 - n.m20, m21 - n.m21, m22 - n.m22, m23 - n.m23,
        m30 - n.m30, m31 - n.m31, m32 - n.m32, m33 - n.m33)
    }

    /** The matrix product this * n. */
    function Mul(n: Matrix4): Matrix4 {
      Matrix4(
        m00 * n.m00 + m01 * n.m10 + m02 * n.m20 + m03 * n.m30,
        m00 * n.m01 + m01 * n.m11 + m02 * n.m21 + m03 * n.m31,
        m00 * n.m02 + m01 * n.m12 + m02 * n.m22 + m03 * n.m32,
        m00 * n.m03 + m01 * n.m13 + m02 * n.m23 + m03 * n.m33,
        m10 * n.m00 + m11 * n.m10 + m12 * n.m20 + m13 * n.m30,
        m10 * n.m01 + m11 * n.m11 + m12 * n.m21 + m13 * n.m31,
        m10 * n.m02 + m11 * n.m12 + m12 * n.m22 + m13 * n.m32,
        m10 * n.m03 + m11 * n.m13 + m12 * n.m23 + m13 * n.m33,
        m20 * n.m00 + m21 * n.m10 + m22 * n.m20 + m23 * n.m30,
        m20 * n.m01 + m21 * n.m11 + m22 * n.m21 + m23 * n.m31,
        m20 * n.m02 + m21 * n.m12 + m22 * n.m22 + m23 * n.m32,
        m20 * n.m03 + m21 * n.m13 + m22 * n.m23 + m23 * n.m33,
        m30 * n.m00 + m31 * n.m10 + m32 * n.m20 + m33 * n.m30,
        m30 * n.m01 + m31 * n.m11 + m32 * n.m21 + m33 * n.m31,
        m30 * n.m02 + m31 * n.m12 + m32 * n.m22 + m33 * n.m32,
        m30 * n.m03 + m31 * n.m13 + m32 * n.m23 + m33 * n.m33)
    }

    function MulScalar(f: real): Matrix4 {
      Matrix4(
        m00 * f, m01 * f, m02 * f, m03 * f,
        m10 * f, m11 * f, m12 * f, m13 * f,
        m20 * f, m21 * f, m22 * f, m23 * f,
        m30 * f, m31 * f, m32 * f, m33 * f)
    }

    /** The first three rows applied to (v, 1); the w row is dropped. */
    function MulVector(v: Vector3): Vector3 {
      Vector3(
        m00 * v.x + m01 * v.y + m02 * v.z + m03,
        m10 * v.x + m11 * v.y + m12 * v.z + m13,
        m20 * v.x + m21 * v.y + m22 * v.z + m23)
    }

    /** The homogeneous w that the last row gives to the point v. */
    function W(v: Vector3): real {
      m30 * v.x + m31 * v.y + m32 * v.z + m33
    }

    /** The last row is (0, 0, 0, 1): the matrix maps points to points with w = 1. */
    predicate IsAffine() {
      m30 == 0.0 && m31 == 0.0 && m32 == 0.0 && m33 == 1.0
    }
  }

  function Identity(): Matrix4 {
    Matrix4(
      1.0, 0.0, 0.0, 0.0,
      0.0, 1.0, 0.0, 0.0,
      0.0, 0.0, 1.0, 0.0,
      0.0, 0.0, 0.0, 1.0)
  }

  /** The matrix of zeros, which Sub gives for a matrix minus itself. */
  function Zeros(): Matrix4 {
    Matrix4(
      0.0, 0.0, 0.0, 0.0,
      0.0, 0.0, 0.0, 0.0,
      0.0, 0.0, 0.0, 0.0,
      0.0, 0.0, 0.0, 0.0)
  }

  function RotateX(theta: real): (m: Matrix4)
    ensures m.IsAffine()
  {
    var s := Sin(theta);
    var c := Cos(theta);
    Matrix4(
      1.0, 0.0, 0.0, 0.0,
      0.0, c, -s, 0.0,
      0.0, s, c, 0.0,
      0.0, 0.0, 0.0, 1.0)
  }

  function RotateY(theta: real): (m: Matrix4)
    ensures m.IsAffine()
  {
    var s := Sin(theta);
    var c := Cos(theta);
    Matrix4(
      c, 0.0, s, 0.0,
      0.0, 1.0, 0.0, 0.0,
      -s, 0.0, c, 0.0,
      0.0, 0.0, 0.0, 1.0)
  }

  function RotateZ(theta: real): (m: Matrix4)
    ensures m.IsAffine()
  {
    var s := Sin(theta);
    var c := Cos(theta);
    Matrix4(
      c, -s, 0.0, 0.0,
      s, c, 0.0, 0.0,
      0.0, 0.0, 1.0, 0.0,
      0.0, 0.0, 0.0, 1.0)
  }

  /**
   * The matrix vecmath builds for a turn about an axis, entry for entry as
   * written (several entries use the x component of the axis where a
   * rotation would use another one). The axis is normalised first, so it must
   * not be the zero vector. The matrix is affine and has no translation.
   */
  function RotateAxis(axis: Vector3, theta: real): (m: Matrix4)
    requires axis != Zero()
    ensures m.IsAffine()
    ensures m.m03 == 0.0 && m.m13 == 0.0 && m.m23 == 0.0
  {
    var v := axis.Normalize();
    var s := Sin(theta);
    var c := Cos(theta);
    var c2 := 1.0 - c;
    Matrix4(
      v.x * v.x * c2 + c, v.x * v.y * c2 - v.x * s, v.x * v.y * c2 + v.x * s, 0.0,
      v.y * v.x * c2 + v.x * s, v.y * v.y * c2 + c, v.y * v.x * c2 - v.x * s, 0.0,
      v.z * v.x * c2 - v.y * s, v.z * v.y * c2 + v.x * s, v.z * v.z * c2 + c, 0.0,
      0.0, 0.0, 0.0, 1.0)
  }

  function Translate(v: Vector3): (m: Matrix4)
    ensures m.IsAffine()
  {
    Matrix4(
      1.0, 0.0, 0.0, v.x,
      0.0, 1.0, 0.0, v.y,
      0.0, 0.0, 1.0, v.z,
      0.0, 0.0, 0.0, 1.0)
  }

  function Scale(v: Vector3): (m: Matrix4)
    ensures m.IsAffine()
  {
    Matrix4(
      v.x, 0.0, 0.0, 0.0,
      0.0, v.y, 0.0, 0.0,
      0.0, 0.0, v.z, 0.0,
      0.0, 0.0, 0.0, 1.0)
  }

  /** The viewing direction's axis: from `to` back towards `from`, normalised. */
  function ViewZ(from: Vector3, to: Vector3): Vector3
    requires from != to
  {
    from.Sub(to).Normalize()
  }

  /**
   * The view matrix of a camera at `from` looking at `to`. Both normalisations
   * need a non-zero vector: the camera must not sit on its target, and the up
   * direction must not be parallel to the line of sight.
   */
  function LookAt(from: Vector3, to: Vector3, upward: Vector3): (m: Matrix4)
    requires from != to
    requires upward.Cross(ViewZ(from, to)) != Zero()
    ensures m.IsAffine()
  {
    var z := ViewZ(from, to);
    var x := upward.Cross(z).Normalize();
    var y := z.Cross(x);
    Matrix4(
      x.x, x.y, x.z, -x.Dot(from),
      y.x, y.y, y.z, -y.Dot(from),
      z.x, z.y, z.z, -z.Dot(from),
      0.0, 0.0, 0.0, 1.0)
  }

  /** The orthographic projection of the box [left, right] x [bottom, top] x [-near, -far]. */
  function Orthographic(left: real, right: real, bottom: real, top: real, near: real, far: real): (m: Matrix4)
    requires right != left && top != bottom && far != near
    ensures m.IsAffine()
  {
    Matrix4(
      2.0 / (right - left), 0.0, 0.0, -(right + left) / (right - left),
      0.0, 2.0 / (top - bottom), 0.0, -(top + bottom) / (top - bottom),
      0.0, 0.0, -2.0 / (far - near), -(far + near) / (far - near),
      0.0, 0.0, 0.0, 1.0)
  }

  /** The perspective projection of the frustum whose near face is [left, right] x [bottom, top] at -near. */
  function Frustum(left: real, right: real, bottom: real, top: real, near: real, far: real): (m: Matrix4)
    requires right != left && top != bottom && far != near
    ensures m.m30 == 0.0 && m.m31 == 0.0 && m.m32 == -1.0 && m.m33 == 0.0
  {
    Matrix4(
      (2.0 * near) / (right - left), 0.0, (right + left) / (right - left), 0.0,
      0.0, (2.0 * near) / (top - bottom), (top + bottom) / (top - bottom), 0.0,
      0.0, 0.0, -(far + near) / (far - near), (-2.0 * near * far) / (far - near),
      0.0, 0.0, -1.0, 0.0)
  }

  /** Half the height of the near face for a vertical field of view of fovy degrees. */
  function PerspectiveTop(fovy: real, near: real): real {
    Tan(fovy * Pi / 360.0) * near
  }

  /**
   * A frustum symmetric about the line of sight. Its near face must not be
   * degenerate (a zero half-height or aspect ratio) and near and far must
   * differ; the off-centre entries are then zero.
   */
  function Perspective(fovy: real, aspect: real, near: real, far: real): (m: Matrix4)
    requires PerspectiveTop(fovy, near) != 0.0 && aspect != 0.0 && far != near
    ensures m.m02 == 0.0 && m.m12 == 0.0
    ensures m.m30 == 0.0 && m.m31 == 0.0 && m.m32 == -1.0 && m.m33 == 0.0
  {
    var top := PerspectiveTop(fovy, near);
    var bottom := -top;
    var left := bottom * aspect;
    var right := top * aspect;
    assert top * aspect * (1.0 / aspect) == top;
    assert left == -(top * aspect);
    Frustum(left, right, bottom, top, near, far)
  }

  /**
   * The point v mapped by the matrix and divided by its w: scaled back by w it
   * is the undivided product. The division needs w to be non-zero.
   */
  function TransformCoordinate(v: Vector3, transform: Matrix4): (r: Vector3)
    requires transform.W(v) != 0.0
    ensures r.MulScalar(transform.W(v)) == transform.MulVector(v)
  {
    var w := 1.0 / transform.W(v);
    var p := transform.MulVector(v);
    ReciprocalCancels(p.x, transform.W(v));
    ReciprocalCancels(p.y, transform.W(v));
    ReciprocalCancels(p.z, transform.W(v));
    p.MulScalar(w)
  }

  // ---------------------------------------------------------------------------
  // Laws

  /** The identity matrix is a unit of the product on both sides. */
  lemma MulIdentity(m: Matrix4)
    ensures m.Mul(Identity()) == m
    ensures Identity().Mul(m) == m
  {
  }

  /** Identity maps every point to itself, with or without the division by w. */
  lemma IdentityMapsPoints(v: Vector3)
    ensures Identity().MulVector(v) == v
    ensures Identity().W(v) == 1.0
    ensures TransformCoordinate(v, Identity()) == v
  {
  }

  /** For an affine matrix w is 1, so TransformCoordinate is MulVector. */
  lemma TransformAffine(v: Vector3, m: Matrix4)
    requires m.IsAffine()
    ensures m.W(v) == 1.0
    ensures TransformCoordinate(v, m) == m.MulVector(v)
  {
  }

  /** Translate(t) moves every point by t; Scale(s) scales it componentwise. */
  lemma TranslateScaleMulVector(t: Vector3, s: Vector3, p: Vector3)
    ensures Translate(t).MulVector(p) == p.Add(t)
    ensures Scale(s).MulVector(p) == p.Mul(s)
  {
  }

  /** Two translations compose into the translation by the sum. */
  lemma TranslateCompose(a: Vector3, b: Vector3)
    ensures Translate(a).Mul(Translate(b)) == Translate(a.Add(b))
  {
  }

  /**
   * Applying a product is applying its factors right to left, when the right
   * factor is affine (its own w is 1).
   */
  lemma MulVectorCompose(a: Matrix4, b: Matrix4, v: Vector3)
    requires b.IsAffine()
    ensures a.Mul(b).MulVector(v) == a.MulVector(b.MulVector(v))
  {
    var ab := a.Mul(b);
    var p := b.MulVector(v);
    RowCompose(a.m00, a.m01, a.m02, a.m03, ab.m00, ab.m01, ab.m02, ab.m03, b, v, p);
    RowCompose(a.m10, a.m11, a.m12, a.m13, ab.m10, ab.m11, ab.m12, ab.m13, b, v, p);
    RowCompose(a.m20, a.m21, a.m22, a.m23, ab.m20, ab.m21, ab.m22, ab.m23, b, v, p);
  }

  /**
   * One row of MulVectorCompose: (r0, r1, r2, r3) is the row (a0, a1, a2, a3)
   * times b, and p is b applied to v.
   */
  lemma RowCompose(a0: real, a1: real, a2: real, a3: real, r0: real, r1: real, r2: real, r3: real,
                   b: Matrix4, v: Vector3, p: Vector3)
    requires b.IsAffine()
    requires r0 == a0 * b.m00 + a1 * b.m10 + a2 * b.m20 + a3 * b.m30
    requires r1 == a0 * b.m01 + a1 * b.m11 + a2 * b.m21 + a3 * b.m31
    requires r2 == a0 * b.m02 + a1 * b.m12 + a2 * b.m22 + a3 * b.m32
    requires r3 == a0 * b.m03 + a1 * b.m13 + a2 * b.m23 + a3 * b.m33
    requires p == b.MulVector(v)
    ensures r0 * v.x + r1 * v.y + r2 * v.z + r3 == a0 * p.x + a1 * p.y + a2 * p.z + a3
  {
  }

  /** Add is commutative and undone by Sub; a matrix minus itself is Zeros(); MulScalar(1) changes nothing. */
  lemma AddSubLaws(m: Matrix4, n: Matrix4)
    ensures m.Add(n) == n.Add(m)
    ensures m.Add(n).Sub(n) == m
    ensures m.Sub(m) == Zeros()
    ensures m.MulScalar(1.0) == m
  {
  }

  /** Each axis rotation fixes every point of its own axis. */
  lemma RotateFixesAxis(theta: real, a: real)
    ensures RotateX(theta).MulVector(Vector3(a, 0.0, 0.0)) == Vector3(a, 0.0, 0.0)
    ensures RotateY(theta).MulVector(Vector3(0.0, a, 0.0)) == Vector3(0.0, a, 0.0)
    ensures RotateZ(theta).MulVector(Vector3(0.0, 0.0, a)) == Vector3(0.0, 0.0, a)
  {
    var s := Sin(theta);
    var c := Cos(theta);
    assert RotateX(theta).MulVector(Vector3(a, 0.0, 0.0)) == Vector3(1.0 * a, 0.0, 0.0);
    assert RotateY(theta).MulVector(Vector3(0.0, a, 0.0)) == Vector3(0.0, 1.0 * a, 0.0);
    assert RotateZ(theta).MulVector(Vector3(0.0, 0.0, a)) == Vector3(0.0, 0.0, 1.0 * a);
  }

  /**
   * When the sine and cosine of theta satisfy sin^2 + cos^2 = 1 (which the
   * model does not assume of math.Sin and math.Cos), RotateX keeps lengths.
   */
  lemma RotateXKeepsLength(theta: real, v: Vector3)
    requires Sin(theta) * Sin(theta) + Cos(theta) * Cos(theta) == 1.0
    ensures RotateX(theta).MulVector(v).LengthSq() == v.LengthSq()
  {
    var s := Sin(theta);
    var c := Cos(theta);
    var r := RotateX(theta).MulVector(v);
    assert r.y == c * v.y - s * v.z;
    assert r.z == s * v.y + c * v.z;
    assert r.y * r.y + r.z * r.z == (s * s + c * c) * (v.y * v.y + v.z * v.z);
  }

  /** RotateAxis maps the origin to itself. */
  lemma RotateAxisFixesOrigin(axis: Vector3, theta: real)
    requires axis != Zero()
    ensures RotateAxis(axis, theta).MulVector(Zero()) == Zero()
  {
  }

  /** The camera position is the origin of the view space LookAt maps into. */
  lemma LookAtMapsEyeToOrigin(from: Vector3, to: Vector3, upward: Vector3)
    requires from != to
    requires upward.Cross(ViewZ(from, to)) != Zero()
    ensures LookAt(from, to, upward).MulVector(from) == Zero()
  {
  }

  /** The three axes LookAt puts in its rows are mutually orthogonal. */
  lemma LookAtRowsOrthogonal(from: Vector3, to: Vector3, upward: Vector3)
    requires from != to
    requires upward.Cross(ViewZ(from, to)) != Zero()
    ensures var m := LookAt(from, to, upward);
      var x := Vector3(m.m00, m.m01, m.m02);
      var y := Vector3(m.m10, m.m11, m.m12);
      var z := Vector3(m.m20, m.m21, m.m22);
      x.Dot(z) == 0.0 && y.Dot(z) == 0.0 && x.Dot(y) == 0.0
  {
    var z := ViewZ(from, to);
    var u := upward.Cross(z);
    var x := u.Normalize();
    var y := z.Cross(x);
    CrossOrthogonal(upward, z);
    DotMulScalar(u, 1.0 / u.Length(), z);
    CrossOrthogonal(z, x);
    DotSymmetric(y, x);
    DotSymmetric(y, z);
  }

  /** The dot product is linear in a scalar factor. */
  lemma DotMulScalar(v: Vector3, k: real, w: Vector3)
    ensures v.MulScalar(k).Dot(w) == k * v.Dot(w)
  {
  }

  /**
   * Orthographic maps the corner (left, bottom, -near) of its box to
   * (-1, -1, -1) and the opposite corner (right, top, -far) to (1, 1, 1).
   */
  lemma OrthographicCorners(left: real, right: real, bottom: real, top: real, near: real, far: real)
    requires right != left && top != bottom && far != near
    ensures Orthographic(left, right, bottom, top, near, far).MulVector(Vector3(left, bottom, -near)) == Vector3(-1.0, -1.0, -1.0)
    ensures Orthographic(left, right, bottom, top, near, far).MulVector(Vector3(right, top, -far)) == Vector3(1.0, 1.0, 1.0)
  {
    var m := Orthographic(left, right, bottom, top, near, far);
    ScaleOffset(left, right);
    ScaleOffset(bottom, top);
    ScaleOffset(-near, -far);
    assert -2.0 / (far - near) == 2.0 / (-far - -near);
    assert -(far + near) / (far - near) == -(-far + -near) / (-far - -near);
  }

  /** The affine map that sends lo to -1 and hi to 1. */
  lemma ScaleOffset(lo: real, hi: real)
    requires lo != hi
    ensures 2.0 / (hi - lo) * lo - (hi + lo) / (hi - lo) == -1.0
    ensures 2.0 / (hi - lo) * hi - (hi + lo) / (hi - lo) == 1.0
  {
    var d := hi - lo;
    assert 2.0 / d * lo - (hi + lo) / d == (2.0 * lo - (hi + lo)) / d;
    assert 2.0 / d * hi - (hi + lo) / d == (2.0 * hi - (hi + lo)) / d;
  }

  /**
   * Frustum gives every point w = -z, and after the division by w it maps the
   * near plane z = -near to depth -1 and the far plane z = -far to depth 1.
   */
  lemma FrustumDepth(left: real, right: real, bottom: real, top: real, near: real, far: real, v: Vector3)
    requires right != left && top != bottom && far != near
    ensures Frustum(left, right, bottom, top, near, far).W(v) == -v.z
    ensures near != 0.0 && v.z == -near ==> TransformCoordinate(v, Frustum(left, right, bottom, top, near, far)).z == -1.0
    ensures far != 0.0 && v.z == -far ==> TransformCoordinate(v, Frustum(left, right, bottom, top, near, far)).z == 1.0
  {
    if near != 0.0 && v.z == -near {
      PlaneDepth(left, right, bottom, top, near, far, v, near);
    }
    if far != 0.0 && v.z == -far {
      PlaneDepth(left, right, bottom, top, near, far, v, far);
    }
  }

  /** The depth Frustum gives a point on its near or far plane z = -p. */
  lemma PlaneDepth(left: real, right: real, bottom: real, top: real, near: real, far: real, v: Vector3, p: real)
    requires right != left && top != bottom && far != near
    requires p != 0.0 && (p == near || p == far) && v.z == -p
    ensures p == near ==> TransformCoordinate(v, Frustum(left, right, bottom, top, near, far)).z == -1.0
    ensures p == far ==> TransformCoordinate(v, Frustum(left, right, bottom, top, near, far)).z == 1.0
  {
    var m := Frustum(left, right, bottom, top, near, far);
    var depth := -(far + near) / (far - near) * v.z + (-2.0 * near * far) / (far - near);
    assert m.MulVector(v).z == depth;
    DepthAt(near, far, p);
    TransformDepth(v, m, depth, p);
  }

  /** The depth of TransformCoordinate is the undivided depth times 1/w. */
  lemma TransformDepth(v: Vector3, m: Matrix4, depth: real, w: real)
    requires m.W(v) == w && w != 0.0 && m.MulVector(v).z == depth
    ensures TransformCoordinate(v, m).z == depth * (1.0 / w)
  {
  }

  /** The depth row of Frustum at z = -p, divided by w = p. */
  lemma DepthAt(near: real, far: real, p: real)
    requires far != near && p != 0.0
    requires p == near || p == far
    ensures p == near ==> (-(far + near) / (far - near) * -p + (-2.0 * near * far) / (far - near)) * (1.0 / p) == -1.0
    ensures p == far ==> (-(far + near) / (far - near) * -p + (-2.0 * near * far) / (far - near)) * (1.0 / p) == 1.0
  {
    var d := far - near;
    var e := -(far + near) / d * -p + (-2.0 * near * far) / d;
    assert e == ((far + near) * p - 2.0 * near * far) / d;
    if p == near {
      assert (far + near) * p - 2.0 * near * far == -(p * d);
      assert e == -p;
    } else {
      assert (far + near) * p - 2.0 * near * far == p * d;
      assert e == p;
    }
  }
}
