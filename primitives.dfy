/** Built-in meshes of package poly (poly/primitive.go). */
module Primitives {
  import opened Vectors
  import opened Geometry
  import Scalars

  // The corners of the square in the plane y = 0 and their texture coordinates.
  function PlaneV1(): Vector3 { NewVector3(-1.0, 0.0, 1.0) }
  function PlaneV2(): Vector3 { NewVector3(1.0, 0.0, 1.0) }
  function PlaneV3(): Vector3 { NewVector3(-1.0, 0.0, -1.0) }
  function PlaneV4(): Vector3 { NewVector3(1.0, 0.0, -1.0) }
  function PlaneT1(): Vector3 { NewVector3(1.0, 0.0, 0.0) }
  function PlaneT2(): Vector3 { NewVector3(0.0, 1.0, 0.0) }
  function PlaneT3(): Vector3 { NewVector3(0.0, 0.0, 0.0) }
  function PlaneT4(): Vector3 { NewVector3(1.0, 1.0, 0.0) }

  /** The first triangle of the plane as written, before its normal is computed. */
  function PlaneFace1(): Triangle {
    Triangle(VertexAt(PlaneV2(), PlaneT1()), VertexAt(PlaneV3(), PlaneT2()), VertexAt(PlaneV1(), PlaneT3()))
  }

  /** The second triangle of the plane as written, before its normal is computed. */
  function PlaneFace2(): Triangle {
    Triangle(VertexAt(PlaneV2(), PlaneT1()), VertexAt(PlaneV4(), PlaneT4()), VertexAt(PlaneV3(), PlaneT2()))
  }

  function PlaneTriangles(): seq<Triangle> {
    [PlaneFace1(), PlaneFace2()]
  }

  /** The corners of the triangle t, in order. */
  function Corners(t: Triangle): seq<Vertex> {
    [t.v1, t.v2, t.v3]
  }

  /** The un-normalised face normal both plane triangles share. */
  function PlaneNormal(): Vector3 { Vector3(0.0, 4.0, 0.0) }

  /** u points straight up the y axis. */
  predicate PointsUp(u: Vector3) {
    u.x == 0.0 && u.z == 0.0 && u.y > 0.0
  }

  /**
   * The square from (-1, 0, -1) to (1, 0, 1) as two new faces, each with its
   * normal computed: every corner keeps its position and texture coordinate
   * and gets the same normal, pointing straight up. The mesh literal sets only
   * the faces, so its position, rotation and scale are all zero vectors (the
   * scale is not Unit()).
   */
  method NewPlane() returns (m: Mesh)
    ensures |m.faces| == 2 && Distinct(m.faces)
    ensures fresh(m.faces[0]) && fresh(m.faces[1])
    ensures PlaneFace1().HasArea() && m.faces[0].Value() == PlaneFace1().WithNormal()
    ensures PlaneFace2().HasArea() && m.faces[1].Value() == PlaneFace2().WithNormal()
    ensures m.faces[0].Value() == PlaneFace1().WithNormals(m.faces[0].v1.normal)
    ensures m.faces[1].Value() == PlaneFace2().WithNormals(m.faces[1].v1.normal)
    ensures PointsUp(m.faces[0].v1.normal) && PointsUp(m.faces[1].v1.normal)
    ensures m.position == Zero() && m.rotation == Zero() && m.scale == Zero()
  {
    Face1Winding();
    Face2Winding();
    m := NewMeshOfTwo(PlaneFace1(), PlaneFace2());
  }

  /**
   * The mesh literal of NewPlane over two triangles whose face normals point
   * up: two new faces, each given its normal by CalcNormal, and a zero
   * position, rotation and scale.
   */
  method NewMeshOfTwo(t1: Triangle, t2: Triangle) returns (m: Mesh)
    requires PointsUp(t1.Normal()) && PointsUp(t2.Normal())
    ensures |m.faces| == 2 && Distinct(m.faces)
    ensures forall i :: 0 <= i < 2 ==> fresh(m.faces[i])
    ensures t1.HasArea() && m.faces[0].Value() == t1.WithNormal()
    ensures t2.HasArea() && m.faces[1].Value() == t2.WithNormal()
    ensures m.faces[0].Value() == t1.WithNormals(m.faces[0].v1.normal)
    ensures m.faces[1].Value() == t2.WithNormals(m.faces[1].v1.normal)
    ensures forall i :: 0 <= i < 2 ==> PointsUp(m.faces[i].v1.normal)
    ensures m.position == Zero() && m.rotation == Zero() && m.scale == Zero()
  {
    var f1 := NewFaceWithNormal(t1);
    var f2 := NewFaceWithNormal(t2);
    m := Mesh([f1, f2], Zero(), Zero(), Zero());
  }

  /**
   * A new face with the corners of t, after CalcNormal. When the face normal
   * of t points up, so does the normal stored in every corner.
   */
  method NewFaceWithNormal(t: Triangle) returns (f: Face)
    requires PointsUp(t.Normal())
    ensures fresh(f)
    ensures f.Value() == t.WithNormals(f.v1.normal)
    ensures t.HasArea() && f.Value() == t.WithNormal()
    ensures PointsUp(f.v1.normal)
  {
    NormalizeUp(t.Normal());
    f := new Face(t.v1, t.v2, t.v3);
    f.CalcNormal();
  }

  // ---------------------------------------------------------------------------
  // Laws

  /** Every corner lies in the plane y = 0 with x and z each -1 or 1. */
  lemma PlaneCorners()
    ensures forall i, k :: 0 <= i < 2 && 0 <= k < 3 ==>
      var c := Corners(PlaneTriangles()[i])[k].coordinates;
      c.y == 0.0 && (c.x == -1.0 || c.x == 1.0) && (c.z == -1.0 || c.z == 1.0)
  {
  }

  /** Both triangles contain v2 and v3, the diagonal they share. */
  lemma PlaneSharedDiagonal()
    ensures forall i :: 0 <= i < 2 ==>
      (exists k :: 0 <= k < 3 && Corners(PlaneTriangles()[i])[k].coordinates == PlaneV2()) &&
      (exists k :: 0 <= k < 3 && Corners(PlaneTriangles()[i])[k].coordinates == PlaneV3())
  {
    assert Corners(PlaneTriangles()[0])[0].coordinates == PlaneV2();
    assert Corners(PlaneTriangles()[0])[1].coordinates == PlaneV3();
    assert Corners(PlaneTriangles()[1])[0].coordinates == PlaneV2();
    assert Corners(PlaneTriangles()[1])[2].coordinates == PlaneV3();
  }

  /**
   * A corner always carries the same texture coordinate wherever it occurs:
   * v1 has (0, 0), v2 has (1, 0), v3 has (0, 1) and v4 has (1, 1).
   */
  lemma PlaneUvs()
    ensures forall i, k :: 0 <= i < 2 && 0 <= k < 3 ==>
      var v := Corners(PlaneTriangles()[i])[k];
      (v.coordinates == PlaneV1() ==> v.uv == Vector3(0.0, 0.0, 0.0)) &&
      (v.coordinates == PlaneV2() ==> v.uv == Vector3(1.0, 0.0, 0.0)) &&
      (v.coordinates == PlaneV3() ==> v.uv == Vector3(0.0, 1.0, 0.0)) &&
      (v.coordinates == PlaneV4() ==> v.uv == Vector3(1.0, 1.0, 0.0))
  {
  }

  /** Both triangles wind the same way: their face normals are both (0, 4, 0), pointing up. */
  lemma PlaneWinding()
    ensures PlaneFace1().Normal() == PlaneNormal()
    ensures PlaneFace2().Normal() == PlaneNormal()
  {
    Face1Winding();
    Face2Winding();
  }

  lemma Face1Winding()
    ensures PlaneFace1().Normal() == PlaneNormal()
  {
    var t := PlaneFace1();
    UpwardNormal(t.v1.coordinates, t.v2.coordinates, t.v3.coordinates,
      Vector3(-2.0, 0.0, -2.0), Vector3(-2.0, 0.0, 0.0));
  }

  lemma Face2Winding()
    ensures PlaneFace2().Normal() == PlaneNormal()
  {
    var t := PlaneFace2();
    UpwardNormal(t.v1.coordinates, t.v2.coordinates, t.v3.coordinates,
      Vector3(0.0, 0.0, -2.0), Vector3(-2.0, 0.0, -2.0));
  }

  /**
   * A triangle in the plane y = 0 whose edges from the first corner are d1 =
   * (p, 0, q) and d2 = (r, 0, s) has the normal (0, q r - p s, 0).
   */
  lemma UpwardNormal(a: Vector3, b: Vector3, c: Vector3, d1: Vector3, d2: Vector3)
    requires a.y == 0.0 && b.y == 0.0 && c.y == 0.0
    requires d1 == b.Sub(a) && d2 == c.Sub(a)
    ensures FaceNormal(a, b, c) == Vector3(0.0, d1.z * d2.x - d1.x * d2.z, 0.0)
  {
  }

  /** Normalising a vector that points up keeps it pointing up. */
  lemma NormalizeUp(v: Vector3)
    requires PointsUp(v)
    ensures PointsUp(v.Normalize())
  {
    assert v.y * (1.0 / v.Length()) > 0.0;
  }
}
