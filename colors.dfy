/** Floating-point RGBA colours of package poly (poly/color.go). */
module Colors {
  import opened GoLib
  import opened GoConv
  import opened Vectors
  import Scalars

  /** An 8-bit non-premultiplied pixel, Go's color.NRGBA. */
  datatype NRGBA = NRGBA(r: Uint8, g: Uint8, b: Uint8, a: Uint8)

  /** A colour with real channels; 0 is none and 1 is full intensity, but nothing enforces the range. */
  datatype Color = Color(r: real, g: real, b: real, a: real) {

    function Add(c: Color): Color {
      Color(r + c.r, g + c.g, b + c.b, a + c.a)
    }

    function Mul(c: Color): Color {
      Color(r * c.r, g * c.g, b * c.b, a * c.a)
    }

    /** Scales the colour channels; alpha is kept. */
    function MulScalar(f: real): (res: Color)
      ensures res.a == a
      ensures res.r == r * f && res.g == g * f && res.b == b * f
    {
      Color(r * f, g * f, b * f, a)
    }

    /** The channelwise minimum with `min`. */
    function Min(min: Color): (res: Color)
      ensures res.r <= r && res.r <= min.r && (res.r == r || res.r == min.r)
      ensures res.g <= g && res.g <= min.g && (res.g == g || res.g == min.g)
      ensures res.b <= b && res.b <= min.b && (res.b == b || res.b == min.b)
      ensures res.a <= a && res.a <= min.a && (res.a == a || res.a == min.a)
    {
      Color(GoLib.Min(r, min.r), GoLib.Min(g, min.g), GoLib.Min(b, min.b), GoLib.Min(a, min.a))
    }

    /**
     * The 8-bit pixel: every channel scaled by 255 and truncated, so a channel
     * in [0, 1] becomes the floor of 255 times it.
     */
    function ToNRGBA(): (p: NRGBA)
      ensures 0.0 <= r <= 1.0 ==> p.r as real <= r * 255.0 < p.r as real + 1.0
      ensures 0.0 <= g <= 1.0 ==> p.g as real <= g * 255.0 < p.g as real + 1.0
      ensures 0.0 <= b <= 1.0 ==> p.b as real <= b * 255.0 < p.b as real + 1.0
      ensures 0.0 <= a <= 1.0 ==> p.a as real <= a * 255.0 < p.a as real + 1.0
    {
      NRGBA(Channel8(r), Channel8(g), Channel8(b), Channel8(a))
    }
  }

  const White: Color := Color(1.0, 1.0, 1.0, 1.0)
  const Black: Color := Color(0.0, 0.0, 0.0, 1.0)

  function NewColor(r: real, g: real, b: real, a: real): Color {
    Color(r, g, b, a)
  }

  /** The colour whose red, green and blue are the components of v, fully opaque. */
  function NewColorFromVec(v: Vector3): (c: Color)
    ensures c.r == v.x && c.g == v.y && c.b == v.z
    ensures c.a == 1.0
  {
    NewColor(v.x, v.y, v.z, 1.0)
  }

  /**
   * uint8(x * 255). For a channel in [0, 1] this is the floor of x * 255, so
   * 1 gives 255 and 0 gives 0 (truncation, not rounding).
   */
  function Channel8(x: real): (v: Uint8)
    ensures 0.0 <= x <= 1.0 ==> v as real <= x * 255.0 < v as real + 1.0
    ensures x == 1.0 ==> v == 255
    ensures x == 0.0 ==> v == 0
  {
    ToUint8(x * 255.0)
  }

  // ---------------------------------------------------------------------------
  // Laws

  /** Add and Mul act channel by channel on all four channels, alpha included, and commute. */
  lemma AddMulChannelwise(c: Color, d: Color)
    ensures c.Add(d) == Color(c.r + d.r, c.g + d.g, c.b + d.b, c.a + d.a)
    ensures c.Mul(d) == Color(c.r * d.r, c.g * d.g, c.b * d.b, c.a * d.a)
    ensures c.Add(d) == d.Add(c)
    ensures c.Mul(d) == d.Mul(c)
  {
  }

  /** White is the unit of Mul. */
  lemma MulWhite(c: Color)
    ensures c.Mul(White) == c
    ensures White.Mul(c) == c
  {
  }

  /** Min is idempotent and commutative. */
  lemma MinLaws(c: Color, d: Color)
    ensures c.Min(c) == c
    ensures c.Min(d) == d.Min(c)
  {
  }

  /** Taking the minimum with White caps every channel at 1. */
  lemma MinWhiteAtMostOne(c: Color)
    ensures var m := c.Min(White); m.r <= 1.0 && m.g <= 1.0 && m.b <= 1.0 && m.a <= 1.0
    ensures 0.0 <= c.r <= 1.0 ==> c.Min(White).r == c.r
  {
  }

  /** White converts to the opaque white pixel and Black to the opaque black pixel. */
  lemma WhiteBlackPixels()
    ensures White.ToNRGBA() == NRGBA(255, 255, 255, 255)
    ensures Black.ToNRGBA() == NRGBA(0, 0, 0, 255)
  {
  }

  /** A channel in [0, 1] scaled by a factor in [0, 1] stays in [0, 1]. */
  lemma ScaledChannel(x: real, f: real)
    requires 0.0 <= x <= 1.0 && 0.0 <= f <= 1.0
    ensures 0.0 <= x * f <= 1.0
  {
    Scalars.MulNonNegative(x, f);
    Scalars.MulNonNegative(1.0 - x, f);
    Scalars.MulNonNegative(x, 1.0 - f);
    assert x * f + (1.0 - x) * f == f;
  }
}
