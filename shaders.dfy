/**
 * The shaders of package poly (poly/shader.go). A shader has a vertex rule,
 * which moves a vertex into clip space, and a fragment rule, which colours a
 * point of a face. All five kinds share the same vertex rule.
 */
module Shaders {
  import opened GoLib
  import opened Vectors
  import opened Matrices
  import opened Colors
  import opened Geometry
  import Scalars

  /** An image that maps texture coordinates to colours; decoding and sampling are not modelled. */
  datatype Texture = Texture(Map: (real, real) -> Color)

  datatype Shader =
    | SolidShader(color: Color)
    | FlatShader(color: Color, light: Vector3)
    | TextureShader(texture: Texture)
    | NormalShader
    | PhongShader(light: Vector3, eye: Vector3, color: Color, pow: real)
  {
    /**
     * The vertex rule: the position goes through TransformCoordinate, the
     * normal through TransformCoordinate and then Normalize; the texture and
     * world coordinates are kept. Both divisions by w must be defined and the
     * transformed normal must have a direction.
     */
    function Vertex(v: Geometry.Vertex, m: Matrix4): (r: Geometry.Vertex)
      requires m.W(v.coordinates) != 0.0 && m.W(v.normal) != 0.0
      requires TransformCoordinate(v.normal, m) != Zero()
      ensures r.coordinates.MulScalar(m.W(v.coordinates)) == m.MulVector(v.coordinates)
      ensures r.normal.MulScalar(TransformCoordinate(v.normal, m).Length()) == TransformCoordinate(v.normal, m)
      ensures r.uv == v.uv && r.worldCoordinates == v.worldCoordinates
    {
      v.(coordinates := TransformCoordinate(v.coordinates, m),
         normal := TransformCoordinate(v.normal, m).Normalize())
    }

    /** When the fragment rule is defined: the Phong rule reflects the light about the normal when it lights the point. */
    predicate CanShade(v: Geometry.Vertex) {
      PhongShader? ==> (Diffuse(v.normal, light) > 0.0 ==> Mirror(light.Negate(), v.normal) != Zero())
    }

    /** The fragment rule: the colour of a point of a face with the interpolated vertex v. */
    function Fragment(v: Geometry.Vertex, p: Vector3): Color
      requires CanShade(v)
    {
      match this
      case SolidShader(c) => c
      case FlatShader(c, l) =>
        var f := Diffuse(v.normal, l);
        NewColor(c.r * f, c.g * f, c.b * f, c.a)
      case TextureShader(t) => t.Map(v.uv.x, v.uv.y)
      case NormalShader => NewColorFromVec(v.normal.Clamp(0.0, 1.0))
      case PhongShader(l, e, c, pow) => c.Mul(PhongLight(v.normal, l, e, pow)).Min(White)
    }
  }

  /** The lighting factor n.l clamped to [0, 1]. */
  function Diffuse(n: Vector3, l: Vector3): (f: real)
    ensures 0.0 <= f <= 1.0
    ensures n.Dot(l) <= 0.0 ==> f == 0.0
    ensures n.Dot(l) >= 1.0 ==> f == 1.0
    ensures 0.0 <= n.Dot(l) <= 1.0 ==> f == n.Dot(l)
  {
    Scalars.Clamp(n.Dot(l), 0.0, 1.0)
  }

  function AmbientColor(): Color { NewColor(0.2, 0.2, 0.2, 1.0) }
  function DiffuseColor(): Color { NewColor(0.8, 0.8, 0.8, 1.0) }
  function SpecularColor(): Color { NewColor(1.0, 1.0, 1.0, 1.0) }

  /**
   * The light the Phong rule gathers before it is applied to the surface
   * colour: ambient plus diffuse, plus specular when the diffuse term is
   * positive. Add sums alpha too, so the alpha is 2, or 3 with the specular
   * term.
   */
  function PhongLight(n: Vector3, l: Vector3, e: Vector3, pow: real): Color
    requires Diffuse(n, l) > 0.0 ==> Mirror(l.Negate(), n) != Zero()
  {
    var diffuse := Diffuse(n, l);
    var c := AmbientColor().Add(DiffuseColor().MulScalar(diffuse));
    if diffuse > 0.0 then
      var reflected := l.Negate().Reflected(n);
      var specular := Pow(Scalars.Clamp(e.Dot(reflected), 0.0, 1.0), pow);
      c.Add(SpecularColor().MulScalar(specular))
    else
      c
  }

  /** NewFlatShader: the light direction is normalised, so it must not be zero. */
  function NewFlatShader(color: Color, light: Vector3): (s: Shader)
    requires light != Zero()
    ensures s.FlatShader? && s.color == color
    ensures s.light.MulScalar(light.Length()) == light
  {
    FlatShader(color, light.Normalize())
  }

  /** NewPhongShader: the light and eye directions are normalised, so neither may be zero. */
  function NewPhongShader(light: Vector3, eye: Vector3, color: Color, pow: real): (s: Shader)
    requires light != Zero() && eye != Zero()
    ensures s.PhongShader? && s.color == color && s.pow == pow
    ensures s.light.MulScalar(light.Length()) == light
    ensures s.eye.MulScalar(eye.Length()) == eye
  {
    PhongShader(light.Normalize(), eye.Normalize(), color, pow)
  }

  // ---------------------------------------------------------------------------
  // Laws

  /**
   * Under an affine matrix (bottom row 0, 0, 0, 1) every shader's vertex rule
   * maps the position by the matrix, with no perspective division.
   */
  lemma VertexAffine(s: Shader, v: Geometry.Vertex, m: Matrix4)
    requires m.IsAffine() && TransformCoordinate(v.normal, m) != Zero()
    ensures s.Vertex(v, m).coordinates == m.MulVector(v.coordinates)
    ensures s.Vertex(v, m).normal == m.MulVector(v.normal).Normalize()
  {
    TransformAffine(v.coordinates, m);
    TransformAffine(v.normal, m);
  }

  /** Under the identity the position is kept and the normal is only normalised. */
  lemma VertexIdentity(s: Shader, v: Geometry.Vertex)
    requires v.normal != Zero()
    ensures s.Vertex(v, Identity()).coordinates == v.coordinates
    ensures s.Vertex(v, Identity()).normal == v.normal.Normalize()
    ensures s.Vertex(v, Identity()).uv == v.uv
  {
    IdentityMapsPoints(v.coordinates);
    IdentityMapsPoints(v.normal);
  }

  /** The solid rule ignores the vertex and the point: it is the stored colour everywhere. */
  lemma SolidConstant(c: Color, v: Geometry.Vertex, w: Geometry.Vertex, p: Vector3, q: Vector3)
    ensures SolidShader(c).Fragment(v, p) == SolidShader(c).Fragment(w, q) == c
  {
  }

  /**
   * The flat rule scales the red, green and blue of its colour by the clamped
   * n.l and keeps alpha; a face turned away from the light (n.l <= 0) is black
   * with the original alpha.
   */
  lemma FlatFragment(c: Color, l: Vector3, v: Geometry.Vertex, p: Vector3)
    ensures var r := FlatShader(c, l).Fragment(v, p);
      var f := Diffuse(v.normal, l);
      r == c.MulScalar(f) && r.a == c.a && 0.0 <= f <= 1.0
    ensures v.normal.Dot(l) <= 0.0 ==> FlatShader(c, l).Fragment(v, p) == Color(0.0, 0.0, 0.0, c.a)
  {
  }

  /** A flat-shaded colour with channels in [0, 1] gives fragments with channels in [0, 1]. */
  lemma FlatInRange(c: Color, l: Vector3, v: Geometry.Vertex, p: Vector3)
    requires 0.0 <= c.r <= 1.0 && 0.0 <= c.g <= 1.0 && 0.0 <= c.b <= 1.0 && 0.0 <= c.a <= 1.0
    ensures var r := FlatShader(c, l).Fragment(v, p);
      0.0 <= r.r <= 1.0 && 0.0 <= r.g <= 1.0 && 0.0 <= r.b <= 1.0 && 0.0 <= r.a <= 1.0
  {
    var f := Diffuse(v.normal, l);
    ScaledChannel(c.r, f);
    ScaledChannel(c.g, f);
    ScaledChannel(c.b, f);
  }

  /** The texture rule depends on the texture coordinate alone. */
  lemma TextureSamplesUv(t: Texture, v: Geometry.Vertex, w: Geometry.Vertex, p: Vector3, q: Vector3)
    requires v.uv == w.uv
    ensures TextureShader(t).Fragment(v, p) == TextureShader(t).Fragment(w, q) == t.Map(v.uv.x, v.uv.y)
  {
  }

  /**
   * The normal rule shows the normal clamped to [0, 1] as red, green and
   * blue, fully opaque; components already in [0, 1] are shown unchanged.
   */
  lemma NormalFragment(v: Geometry.Vertex, p: Vector3)
    ensures var r := NormalShader.Fragment(v, p);
      0.0 <= r.r <= 1.0 && 0.0 <= r.g <= 1.0 && 0.0 <= r.b <= 1.0 && r.a == 1.0
    ensures var r := NormalShader.Fragment(v, p);
      (0.0 <= v.normal.x <= 1.0 ==> r.r == v.normal.x) &&
      (0.0 <= v.normal.y <= 1.0 ==> r.g == v.normal.y) &&
      (0.0 <= v.normal.z <= 1.0 ==> r.b == v.normal.z)
  {
  }

  /** Every channel of a Phong fragment is at most 1: the result is capped by White. */
  lemma PhongAtMostOne(s: Shader, v: Geometry.Vertex, p: Vector3)
    requires s.PhongShader? && s.CanShade(v)
    ensures var r := s.Fragment(v, p); r.r <= 1.0 && r.g <= 1.0 && r.b <= 1.0 && r.a <= 1.0
  {
    MinWhiteAtMostOne(s.color.Mul(PhongLight(v.normal, s.light, s.eye, s.pow)));
  }

  /**
   * A point the light does not reach (n.l <= 0) gets no diffuse and no
   * specular term: its colour is the surface colour times the ambient light
   * (0.2, 0.2, 0.2), with alpha doubled by the unused diffuse colour, capped
   * by White.
   */
  lemma PhongUnlit(l: Vector3, e: Vector3, c: Color, pow: real, v: Geometry.Vertex, p: Vector3)
    requires v.normal.Dot(l) <= 0.0
    ensures PhongShader(l, e, c, pow).Fragment(v, p) == c.Mul(Color(0.2, 0.2, 0.2, 2.0)).Min(White)
  {
    assert DiffuseColor().MulScalar(0.0) == Color(0.0, 0.0, 0.0, 1.0);
  }

  /**
   * A lit point (n.l > 0) gathers ambient, diffuse and the specular power of
   * the eye's alignment with the reflected light; alpha is tripled.
   */
  lemma PhongLit(l: Vector3, e: Vector3, c: Color, pow: real, v: Geometry.Vertex, p: Vector3)
    requires Diffuse(v.normal, l) > 0.0 && Mirror(l.Negate(), v.normal) != Zero()
    ensures var d := Diffuse(v.normal, l);
      var s := Pow(Scalars.Clamp(e.Dot(l.Negate().Reflected(v.normal)), 0.0, 1.0), pow);
      var k := 0.2 + 0.8 * d + s;
      PhongShader(l, e, c, pow).Fragment(v, p) == c.Mul(Color(k, k, k, 3.0)).Min(White)
  {
  }
}
