/**
 * The scene model of package poly: vertices (poly/vertex.go), faces and their
 * normals (poly/face.go), meshes (poly/mesh.go) and the camera record
 * (poly/camera.go).
 */
module Geometry {
  import opened Vectors

  /** A corner of a face: its position, world position, texture coordinate and normal. */
  datatype Vertex = Vertex(coordinates: Vector3, worldCoordinates: Vector3, uv: Vector3, normal: Vector3)

  /** A vertex with only a position and a texture coordinate; the other fields are zero, as in a Go literal. */
  function VertexAt(coordinates: Vector3, uv: Vector3): Vertex {
    Vertex(coordinates, Zero(), uv, Zero())
  }

  /** The un-normalised normal (b - a) x (c - a) of the triangle a, b, c. */
  function FaceNormal(a: Vector3, b: Vector3, c: Vector3): Vector3 {
    b.Sub(a).Cross(c.Sub(a))
  }

  /** The three corners of a face, as a value. */
  datatype Triangle = Triangle(v1: Vertex, v2: Vertex, v3: Vertex) {

    function Normal(): Vector3 {
      FaceNormal(v1.coordinates, v2.coordinates, v3.coordinates)
    }

    /** The corners are not collinear, so the face has a direction to normalise. */
    predicate HasArea() {
      Normal() != Zero()
    }

    /** The triangle with the normal of every corner set to n; every other field is kept. */
    function WithNormals(n: Vector3): (t: Triangle)
      ensures t.v1.normal == t.v2.normal == t.v3.normal == n
      ensures t.v1 == v1.(normal := n) && t.v2 == v2.(normal := n) && t.v3 == v3.(normal := n)
    {
      Triangle(v1.(normal := n), v2.(normal := n), v3.(normal := n))
    }

    /** The triangle after CalcNormal: each corner's normal is the normalised face normal. */
    function WithNormal(): Triangle
      requires HasArea()
    {
      WithNormals(Normal().Normalize())
    }
  }

  /** A face of a mesh; CalcNormal rewrites its corners in place. */
  class Face {
    var v1: Vertex
    var v2: Vertex
    var v3: Vertex

    constructor(v1: Vertex, v2: Vertex, v3: Vertex)
      ensures this.v1 == v1 && this.v2 == v2 && this.v3 == v3
    {
      this.v1 := v1;
      this.v2 := v2;
      this.v3 := v3;
    }

    function Value(): Triangle
      reads this
    {
      Triangle(v1, v2, v3)
    }

    /**
     * Sets the normal of all three corners to the normalised face normal. The
     * face must not be degenerate (Go would store NaN components).
     */
    method CalcNormal()
      requires Value().HasArea()
      modifies this
      ensures Value() == old(Value()).WithNormal()
      ensures v1.normal == v2.normal == v3.normal == old(Value().Normal()).Normalize()
      ensures v1 == old(v1).(normal := v1.normal)
      ensures v2 == old(v2).(normal := v2.normal)
      ensures v3 == old(v3).(normal := v3.normal)
    {
      var d1 := v2.coordinates.Sub(v1.coordinates);
      var d2 := v3.coordinates.Sub(v1.coordinates);
      var n := d1.Cross(d2).Normalize();
      v1 := v1.(normal := n);
      v2 := v2.(normal := n);
      v3 := v3.(normal := n);
    }
  }

  /** The values of a sequence of faces. */
  function Triangles(faces: seq<Face>): (ts: seq<Triangle>)
    reads faces
    ensures |ts| == |faces|
    ensures forall i :: 0 <= i < |faces| ==> ts[i] == faces[i].Value()
  {
    if faces == [] then [] else Triangles(faces[..|faces| - 1]) + [faces[|faces| - 1].Value()]
  }

  /** No face object appears twice. */
  predicate Distinct(faces: seq<Face>) {
    forall i, j :: 0 <= i < j < |faces| ==> faces[i] != faces[j]
  }

  /** A face that is not yet in a sequence of distinct faces can be appended to it. */
  lemma DistinctAppend(faces: seq<Face>, f: Face)
    requires Distinct(faces) && f !in faces
    ensures Distinct(faces + [f])
  {
  }

  /** The values of faces with one more face appended. */
  lemma TrianglesAppend(faces: seq<Face>, f: Face)
    ensures Triangles(faces + [f]) == Triangles(faces) + [f.Value()]
  {
    assert (faces + [f])[..|faces|] == faces;
  }

  /** A mesh: its faces and the transform that places it in the world. */
  datatype Mesh = Mesh(faces: seq<Face>, position: Vector3, rotation: Vector3, scale: Vector3)

  /** An empty mesh at the origin, unrotated, at unit scale. */
  function NewMesh(): (m: Mesh)
    ensures m.faces == []
    ensures m.position == Zero() && m.rotation == Zero()
    ensures m.scale == Unit() == Vector3(1.0, 1.0, 1.0)
  {
    Mesh([], Zero(), Zero(), Unit())
  }

  /** Where a camera is, what it looks at and which way is up. */
  datatype Camera = Camera(position: Vector3, target: Vector3, up: Vector3)

  // ---------------------------------------------------------------------------
  // Laws

  /** The face normal is orthogonal to both edges that leave the first corner. */
  lemma FaceNormalOrthogonal(a: Vector3, b: Vector3, c: Vector3)
    ensures FaceNormal(a, b, c).Dot(b.Sub(a)) == 0.0
    ensures FaceNormal(a, b, c).Dot(c.Sub(a)) == 0.0
  {
    CrossOrthogonal(b.Sub(a), c.Sub(a));
  }

  /** Swapping the second and third corners (reversing the winding) negates the face normal. */
  lemma FaceNormalWinding(a: Vector3, b: Vector3, c: Vector3)
    ensures FaceNormal(a, c, b) == FaceNormal(a, b, c).Negate()
  {
    CrossAntiCommutative(c.Sub(a), b.Sub(a));
  }

  /**
   * Collinear corners (the third on the line through the first two) give the
   * zero normal, so CalcNormal cannot be applied to them.
   */
  lemma FaceNormalCollinear(a: Vector3, b: Vector3, k: real)
    ensures FaceNormal(a, b, a.Add(b.Sub(a).MulScalar(k))) == Zero()
    ensures !Triangle(VertexAt(a, Zero()), VertexAt(b, Zero()), VertexAt(a.Add(b.Sub(a).MulScalar(k)), Zero())).HasArea()
  {
    var d := b.Sub(a);
    assert a.Add(d.MulScalar(k)).Sub(a) == d.MulScalar(k);
    CrossParallel(d, k);
  }

  /**
   * Setting the corner normals leaves the corners, and so the face normal, as
   * they were; setting them twice is the same as setting them once.
   */
  lemma WithNormalsKeepsNormal(t: Triangle, n: Vector3, k: Vector3)
    ensures t.WithNormals(n).Normal() == t.Normal()
    ensures t.WithNormals(n).WithNormals(k) == t.WithNormals(k)
  {
  }

  /** The normal CalcNormal stores points along the face normal: scaled back by its length it is the face normal. */
  lemma WithNormalParallel(t: Triangle)
    requires t.HasArea()
    ensures t.WithNormal().v1.normal.MulScalar(t.Normal().Length()) == t.Normal()
    ensures t.WithNormal().v1.coordinates == t.v1.coordinates
    ensures t.WithNormal().v2.uv == t.v2.uv
  {
  }
}
