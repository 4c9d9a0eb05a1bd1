/**
 * The frame buffer of package poly (poly/device.go): a Width x Height image
 * of 8-bit pixels that can be cleared, written one pixel at a time, and used
 * to plot the points of a mesh.
 *
 * The buffer is Go's image.NRGBA over image.Rect(0, 0, Width, Height).
 * image.Rect swaps the corners of a negative extent, so the buffer covers
 * the columns from min(0, Width) to max(0, Width) and likewise for the rows;
 * a pixel outside that rectangle is silently ignored by Set and SetNRGBA.
 * The pixels are modelled as a grid of rows, row y - minY and column x - minX
 * holding pixel (x, y).
 */
module Devices {
  import opened GoConv
  import opened Vectors
  import opened Colors

  /** The pixels of an image, row by row. */
  type Grid = seq<seq<NRGBA>>

  /** The zero pixel Go's make gives a new image: black and fully transparent. */
  const Transparent: NRGBA := NRGBA(0, 0, 0, 0)

  /** The lower corner image.Rect gives an extent: 0, or the extent itself when it is negative. */
  function RectMin(extent: int): (m: int)
    ensures m <= 0 && m <= extent
    ensures m == 0 || m == extent
  {
    if extent < 0 then extent else 0
  }

  /** The number of pixels image.Rect gives an extent along one axis. */
  function RectSize(extent: int): (n: nat)
    ensures RectMin(extent) + n == (if extent < 0 then 0 else extent)
  {
    if extent < 0 then -extent else extent
  }

  /** Every row of g has `columns` pixels. */
  predicate Rectangular(g: Grid, columns: nat) {
    forall i :: 0 <= i < |g| ==> |g[i]| == columns
  }

  /** The grid with pixel (x, y) set to p when that pixel lies in it: SetNRGBA on an image whose corner is (minX, minY). */
  function Plotted(g: Grid, minX: int, minY: int, x: int, y: int, p: NRGBA): Grid {
    var i, j := y - minY, x - minX;
    if 0 <= i < |g| && 0 <= j < |g[i]| then g[i := g[i][j := p]] else g
  }

  /** The grid after SetNRGBA(x, y, p) for every 0 <= x < width and 0 <= y < height. */
  function Filled(g: Grid, minX: int, minY: int, width: int, height: int, p: NRGBA): Grid {
    seq(|g|, i requires 0 <= i < |g| =>
      seq(|g[i]|, j requires 0 <= j < |g[i]| =>
        if 0 <= minX + j < width && 0 <= minY + i < height then p else g[i][j]))
  }

  /** The grid after SetNRGBA at each of the points, in order. */
  function PlottedAll(g: Grid, minX: int, minY: int, points: seq<(int, int)>, p: NRGBA): Grid {
    if points == [] then g
    else
      var last := points[|points| - 1];
      Plotted(PlottedAll(g, minX, minY, points[..|points| - 1], p), minX, minY, last.0, last.1, p)
  }

  /** Go's integer division n / 2, which truncates toward zero. */
  function Half(n: int): (q: int)
    ensures n >= 0 ==> 0 <= q && 2 * q <= n < 2 * q + 2
    ensures n < 0 ==> q <= 0 && 2 * q - 2 < n <= 2 * q
  {
    if n >= 0 then n / 2 else -((-n) / 2)
  }

  /** The scale DrawMesh applies to both coordinates: 0.8 of half the width. */
  function Scale(width: int): real {
    width as real * 0.8 / 2.0
  }

  /**
   * Where DrawMesh plots a point: x * s + Width/2 and y * s + Height/2, with
   * s = Scale(Width) and the halves taken as integers before they are
   * converted to float, each sum truncated by the int conversion.
   */
  function PlotPoint(v: Vector3, width: int, height: int): (int, int) {
    (PlotCoord(v.x, Scale(width), Half(width)), PlotCoord(v.y, Scale(width), Half(height)))
  }

  /** One coordinate of a plotted point: int(c * scale + float64(center)). */
  function PlotCoord(c: real, scale: real, center: int): int {
    Trunc(c * scale + center as real)
  }

  /** The pixels DrawMesh plots for the points, in order. */
  function PlotPoints(points: seq<Vector3>, width: int, height: int): (r: seq<(int, int)>)
    ensures |r| == |points|
    ensures forall k :: 0 <= k < |points| ==> r[k] == PlotPoint(points[k], width, height)
  {
    seq(|points|, k requires 0 <= k < |points| => PlotPoint(points[k], width, height))
  }

  class Device {
    var width: int
    var height: int
    var colorBuffer: array2<NRGBA>
    /** The corner of the buffer's rectangle, as image.Rect leaves it. */
    var minX: int
    var minY: int

    /** The buffer covers image.Rect(0, 0, width, height): rows are y, columns are x. */
    ghost predicate Valid()
      reads this
    {
      minX == RectMin(width) && minY == RectMin(height) &&
      colorBuffer.Length0 == RectSize(height) && colorBuffer.Length1 == RectSize(width)
    }

    /** The pixels of the buffer, row by row. */
    ghost function Pixels(): (g: Grid)
      reads this, colorBuffer
      ensures |g| == colorBuffer.Length0 && Rectangular(g, colorBuffer.Length1)
    {
      seq(colorBuffer.Length0, i requires 0 <= i < colorBuffer.Length0 reads this, colorBuffer =>
        seq(colorBuffer.Length1, j requires 0 <= i < colorBuffer.Length0 && 0 <= j < colorBuffer.Length1 reads this, colorBuffer =>
          colorBuffer[i, j]))
    }

    /** NewDevice: the size is stored and every pixel starts transparent. */
    constructor (width: int, height: int)
      ensures Valid() && fresh(colorBuffer)
      ensures this.width == width && this.height == height
      ensures forall i, j :: 0 <= i < colorBuffer.Length0 && 0 <= j < colorBuffer.Length1 ==> colorBuffer[i, j] == Transparent
    {
      this.width := width;
      this.height := height;
      minX := RectMin(width);
      minY := RectMin(height);
      colorBuffer := new NRGBA[RectSize(height), RectSize(width)]((i, j) => Transparent);
    }

    /** image.NRGBA.SetNRGBA: pixel (x, y) becomes p when it lies in the buffer; nothing happens otherwise. */
    method SetNRGBA(x: int, y: int, p: NRGBA)
      requires Valid()
      modifies colorBuffer
      ensures Pixels() == Plotted(old(Pixels()), minX, minY, x, y, p)
      ensures forall i, j :: 0 <= i < colorBuffer.Length0 && 0 <= j < colorBuffer.Length1 ==>
        colorBuffer[i, j] == if i == y - minY && j == x - minX then p else old(colorBuffer[i, j])
    {
      var i, j := y - minY, x - minX;
      if 0 <= i < colorBuffer.Length0 && 0 <= j < colorBuffer.Length1 {
        colorBuffer[i, j] := p;
      }
      ghost var g := old(Pixels());
      assert forall r :: 0 <= r < |g| ==> Pixels()[r] == Plotted(g, minX, minY, x, y, p)[r];
    }

    /** PutPixel: pixel (x, y) takes the 8-bit form of c, when it lies in the buffer. */
    method PutPixel(x: int, y: int, c: Color)
      requires Valid()
      modifies colorBuffer
      ensures Pixels() == Plotted(old(Pixels()), minX, minY, x, y, c.ToNRGBA())
    {
      SetNRGBA(x, y, c.ToNRGBA());
    }

    /** ClearColorBuffer: every pixel (x, y) with 0 <= x < width and 0 <= y < height takes the 8-bit form of c. */
    method ClearColorBuffer(c: Color)
      requires Valid()
      modifies colorBuffer
      ensures Pixels() == Filled(old(Pixels()), minX, minY, width, height, c.ToNRGBA())
    {
      var p := c.ToNRGBA();
      var y := 0;
      while y < height
        invariant 0 <= y && (height >= 0 ==> y <= height)
        invariant forall i, j :: 0 <= i < colorBuffer.Length0 && 0 <= j < colorBuffer.Length1 ==>
          colorBuffer[i, j] == if 0 <= minX + j < width && 0 <= minY + i < y then p else old(colorBuffer[i, j])
      {
        var x := 0;
        while x < width
          invariant 0 <= x && (width >= 0 ==> x <= width)
          invariant forall i, j :: 0 <= i < colorBuffer.Length0 && 0 <= j < colorBuffer.Length1 ==>
            colorBuffer[i, j] ==
              if 0 <= minX + j < width && (0 <= minY + i < y || (minY + i == y && minX + j < x)) then p
              else old(colorBuffer[i, j])
        {
          SetNRGBA(x, y, p);
          x := x + 1;
        }
        y := y + 1;
      }
      GridExt(Pixels(), Filled(old(Pixels()), minX, minY, width, height, p));
    }

    /** DrawMesh: each point is plotted in colour c at PlotPoint, in order. */
    method DrawMesh(points: seq<Vector3>, c: Color)
      requires Valid()
      modifies colorBuffer
      ensures Pixels() == PlottedAll(old(Pixels()), minX, minY, PlotPoints(points, width, height), c.ToNRGBA())
    {
      ghost var g := old(Pixels());
      var w, h := width, height;
      ghost var plots := PlotPoints(points, w, h);
      var scale := Scale(w);
      var cx, cy := Half(w), Half(h);
      var k := 0;
      while k < |points|
        invariant 0 <= k <= |points|
        invariant Pixels() == PlottedAll(g, minX, minY, plots[..k], c.ToNRGBA())
      {
        var v := points[k];
        PutPixel(PlotCoord(v.x, scale, cx), PlotCoord(v.y, scale, cy), c);
        assert plots[..k + 1][..k] == plots[..k];
        k := k + 1;
      }
      assert plots[..k] == plots;
    }
  }

  // ---------------------------------------------------------------------------
  // Laws

  /**
   * Clearing a device: when both extents are non-negative every pixel of the
   * buffer takes the colour; when either is negative the loops do not run
   * and the buffer image.Rect gave the device is left as it was.
   */
  lemma FilledDevice(g: Grid, width: int, height: int, p: NRGBA)
    requires |g| == RectSize(height) && Rectangular(g, RectSize(width))
    ensures var f := Filled(g, RectMin(width), RectMin(height), width, height, p);
      |f| == |g| && Rectangular(f, RectSize(width)) &&
      (width >= 0 && height >= 0 ==> forall i, j :: 0 <= i < |f| && 0 <= j < |f[i]| ==> f[i][j] == p) &&
      (width < 0 || height < 0 ==> f == g)
  {
    var f := Filled(g, RectMin(width), RectMin(height), width, height, p);
    if width < 0 || height < 0 {
      GridExt(f, g);
    }
  }

  /** Clearing twice with the same colour is clearing once. */
  lemma FilledIdempotent(g: Grid, minX: int, minY: int, width: int, height: int, p: NRGBA)
    ensures Filled(Filled(g, minX, minY, width, height, p), minX, minY, width, height, p) == Filled(g, minX, minY, width, height, p)
  {
    FilledLastWins(g, minX, minY, width, height, p, p);
  }

  /** The last clear wins: clearing with p and then q is clearing with q. */
  lemma FilledLastWins(g: Grid, minX: int, minY: int, width: int, height: int, p: NRGBA, q: NRGBA)
    ensures Filled(Filled(g, minX, minY, width, height, p), minX, minY, width, height, q) == Filled(g, minX, minY, width, height, q)
  {
    GridExt(Filled(Filled(g, minX, minY, width, height, p), minX, minY, width, height, q), Filled(g, minX, minY, width, height, q));
  }

  /**
   * Setting one pixel keeps the shape of the grid, gives pixel (x, y) the
   * colour when it lies in the grid and changes no other pixel; a pixel
   * outside the grid changes nothing.
   */
  lemma PlottedCells(g: Grid, minX: int, minY: int, x: int, y: int, p: NRGBA)
    ensures var r := Plotted(g, minX, minY, x, y, p);
      |r| == |g| && (forall i :: 0 <= i < |g| ==> |r[i]| == |g[i]|) &&
      (forall i, j :: 0 <= i < |g| && 0 <= j < |g[i]| ==>
        r[i][j] == if (minX + j, minY + i) == (x, y) then p else g[i][j])
  {
  }

  /**
   * Plotting a sequence of points keeps the shape of the grid and writes
   * only the colour: a pixel ends up with the colour exactly when one of the
   * points lands on it, and keeps its old value otherwise.
   */
  lemma {:induction false} PlottedAllCells(g: Grid, minX: int, minY: int, points: seq<(int, int)>, p: NRGBA)
    ensures var r := PlottedAll(g, minX, minY, points, p);
      |r| == |g| && (forall i :: 0 <= i < |g| ==> |r[i]| == |g[i]|) &&
      (forall i, j :: 0 <= i < |g| && 0 <= j < |g[i]| ==>
        r[i][j] == if (minX + j, minY + i) in points then p else g[i][j])
  {
    if points != [] {
      var n := |points| - 1;
      var prev := PlottedAll(g, minX, minY, points[..n], p);
      PlottedAllCells(g, minX, minY, points[..n], p);
      PlottedCells(prev, minX, minY, points[n].0, points[n].1, p);
      assert points == points[..n] + [points[n]];
    }
  }

  /** The origin is plotted at the centre, (Width/2, Height/2) in Go's integer division. */
  lemma PlotOrigin(width: int, height: int)
    ensures PlotPoint(Zero(), width, height) == (Half(width), Half(height))
  {
    TruncWhole(Half(width));
    TruncWhole(Half(height));
  }

  /** A whole number survives the conversion to float and back. */
  lemma TruncWhole(n: int)
    ensures Trunc(n as real) == n
  {
  }

  /** Two grids of the same shape with the same pixels are equal. */
  lemma GridExt(a: Grid, b: Grid)
    requires |a| == |b|
    requires forall i :: 0 <= i < |a| ==> |a[i]| == |b[i]|
    requires forall i, j :: 0 <= i < |a| && 0 <= j < |a[i]| ==> a[i][j] == b[i][j]
    ensures a == b
  {
    assert forall i :: 0 <= i < |a| ==> a[i] == b[i];
  }
}
