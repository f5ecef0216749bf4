/** RyCL/Graphics/Kernels/LineKernel.cs: the per-pixel line test (an
    inclusive bounding box, then a perpendicular-distance threshold of half a
    pixel) and the kernel thread that applies it. */
module LineKernel {
  import opened Surface
  import opened Reals

  datatype LineDrawCall = LineDrawCall(X0: int, Y0: int, X1: int, Y1: int, Color: Color)

  /** The pixel lies in the segment's inclusive axis-aligned bounding box. */
  predicate InBounds(x0: int, y0: int, x1: int, y1: int, px: int, py: int)
  {
    Min(x0, x1) <= px <= Max(x0, x1) && Min(y0, y1) <= py <= Max(y0, y1)
  }

  /** The slope the kernel computes in doubles, m = (y0 - y1) / (x0 - x1). */
  function Slope(x0: int, y0: int, x1: int, y1: int): real
    requires x0 != x1
  {
    (y0 - y1) as real / (x0 - x1) as real
  }

  /** The kernel's signed vertical offset e = m*px - py + b of the pixel from
      the line, with b = y0 - m*x0. */
  function Offset(x0: int, y0: int, x1: int, y1: int, px: int, py: int): real
    requires x0 != x1
  {
    var m := Slope(x0, y0, x1, y1);
    var b := y0 as real - m * x0 as real;
    m * px as real - py as real + b
  }

  /** The distance test as the kernel computes it: the pixel passes when
      |e| / sqrt(m*m + 1) < 0.5, which is 4e² < m² + 1 (DistanceThreshold).
      When x0 == x1 the double division gives an infinite or NaN slope, the
      distance is NaN and the comparison is false: a vertical segment passes
      no pixel. */
  predicate NearLine(x0: int, y0: int, x1: int, y1: int, px: int, py: int)
  {
    x0 != x1 &&
    var e := Offset(x0, y0, x1, y1, px, py);
    var m := Slope(x0, y0, x1, y1);
    4.0 * (e * e) < m * m + 1.0
  }

  /** Kernel_Draw_Line's decision for pixel (px, py). */
  predicate Covers(x0: int, y0: int, x1: int, y1: int, px: int, py: int)
  {
    InBounds(x0, y0, x1, y1, px, py) && NearLine(x0, y0, x1, y1, px, py)
  }

  predicate CallCovers(c: LineDrawCall, px: int, py: int)
  {
    Covers(c.X0, c.Y0, c.X1, c.Y1, px, py)
  }

  /** The cross product of the segment direction with the pixel's offset from
      (x0, y0): zero exactly on the infinite line through the endpoints. */
  function Cross(x0: int, y0: int, x1: int, y1: int, px: int, py: int): int
  {
    (y0 - y1) * (px - x0) - (x0 - x1) * (py - y0)
  }

  /** The squared length of the segment. */
  function LengthSquared(x0: int, y0: int, x1: int, y1: int): int
  {
    (x0 - x1) * (x0 - x1) + (y0 - y1) * (y0 - y1)
  }

  /** For any true square root s of m² + 1, the kernel's comparison
      |e| / s < 0.5 is the squared comparison NearLine uses. */
  lemma DistanceThreshold(e: real, m: real, s: real)
    requires s >= 0.0 && s * s == m * m + 1.0
    ensures RealAbs(e) / s < 0.5 <==> 4.0 * (e * e) < m * m + 1.0
  {
    var a := RealAbs(e);
    assert m * m >= 0.0 by {
      if m < 0.0 { MulPos(-m, -m); } else { MulNonneg(m, m); }
    }
    assert s > 0.0;
    assert a * a == e * e;
    var q := a / s;
    assert q * s == a;
    ScaleLess(q, 0.5, s);
    var h := 0.5 * s;
    SquareLess(a, h);
    assert h * h == 0.25 * (s * s);
  }

  /** The slope times the horizontal extent is the vertical extent. */
  lemma SlopeTimesWidth(x0: int, y0: int, x1: int, y1: int)
    requires x0 != x1
    ensures Slope(x0, y0, x1, y1) * (x0 - x1) as real == (y0 - y1) as real
  {
  }

  /** The offset times the horizontal extent is the cross product. */
  lemma OffsetTimesWidth(x0: int, y0: int, x1: int, y1: int, px: int, py: int)
    requires x0 != x1
    ensures Offset(x0, y0, x1, y1, px, py) * (x0 - x1) as real == Cross(x0, y0, x1, y1, px, py) as real
  {
    var m := Slope(x0, y0, x1, y1);
    var dx := (x0 - x1) as real;
    SlopeTimesWidth(x0, y0, x1, y1);
    assert Offset(x0, y0, x1, y1, px, py) == m * (px - x0) as real - (py - y0) as real;
    assert (m * (px - x0) as real - (py - y0) as real) * dx
      == (m * dx) * (px - x0) as real - dx * (py - y0) as real;
    CastProduct(y0 - y1, px - x0);
    CastProduct(x0 - x1, py - y0);
  }

  /** Multiplying both sides of the test by dx² clears the denominators. */
  lemma ThresholdScaled(e: real, m: real, dx: real, dy: real, k: real)
    requires dx * dx >= 1.0 && m * dx == dy && k == e * dx
    ensures 4.0 * (e * e) < m * m + 1.0 <==> 4.0 * (k * k) < dy * dy + dx * dx
  {
    assert (m * m + 1.0) * (dx * dx) == dy * dy + dx * dx by {
      assert (m * m) * (dx * dx) == (m * dx) * (m * dx);
    }
    assert (4.0 * (e * e)) * (dx * dx) == 4.0 * ((e * dx) * (e * dx));
    ScaleLess(4.0 * (e * e), m * m + 1.0, dx * dx);
  }

  /** The distance test in exact integer arithmetic: four times the squared
      cross product is below the squared segment length. */
  lemma NearLineExact(x0: int, y0: int, x1: int, y1: int, px: int, py: int)
    ensures NearLine(x0, y0, x1, y1, px, py) <==>
      x0 != x1 &&
      4 * (Cross(x0, y0, x1, y1, px, py) * Cross(x0, y0, x1, y1, px, py))
        < LengthSquared(x0, y0, x1, y1)
  {
    if x0 != x1 {
      var k := Cross(x0, y0, x1, y1, px, py);
      IntSquareAtLeastOne(x0 - x1);
      SlopeTimesWidth(x0, y0, x1, y1);
      OffsetTimesWidth(x0, y0, x1, y1, px, py);
      ThresholdScaled(Offset(x0, y0, x1, y1, px, py), Slope(x0, y0, x1, y1),
        (x0 - x1) as real, (y0 - y1) as real, k as real);
      CastProduct(k, k);
      CastProduct(x0 - x1, x0 - x1);
      CastProduct(y0 - y1, y0 - y1);
    }
  }

  /** Swapping the endpoints does not change the bounding box. */
  lemma InBoundsSymmetric(x0: int, y0: int, x1: int, y1: int, px: int, py: int)
    ensures InBounds(x0, y0, x1, y1, px, py) == InBounds(x1, y1, x0, y0, px, py)
  {
  }

  /** Swapping the endpoints does not change which pixels the line covers. */
  lemma CoversSymmetric(x0: int, y0: int, x1: int, y1: int, px: int, py: int)
    ensures Covers(x0, y0, x1, y1, px, py) == Covers(x1, y1, x0, y0, px, py)
  {
    NearLineExact(x0, y0, x1, y1, px, py);
    NearLineExact(x1, y1, x0, y0, px, py);
    var k := Cross(x0, y0, x1, y1, px, py);
    var k' := Cross(x1, y1, x0, y0, px, py);
    assert k' == -k;
    assert k' * k' == k * k;
  }

  /** A pixel outside the bounding box is never covered. */
  lemma CoveredInBounds(x0: int, y0: int, x1: int, y1: int, px: int, py: int)
    requires Covers(x0, y0, x1, y1, px, py)
    ensures Min(x0, x1) <= px <= Max(x0, x1) && Min(y0, y1) <= py <= Max(y0, y1)
  {
  }

  /** Both endpoints of a non-vertical segment are covered: their distance to
      the line is zero. */
  lemma EndpointsCovered(x0: int, y0: int, x1: int, y1: int)
    requires x0 != x1
    ensures Covers(x0, y0, x1, y1, x0, y0) && Covers(x0, y0, x1, y1, x1, y1)
  {
    NearLineExact(x0, y0, x1, y1, x0, y0);
    NearLineExact(x0, y0, x1, y1, x1, y1);
    assert Cross(x0, y0, x1, y1, x1, y1) == 0;
  }

  /** A vertical segment (or a single point) covers no pixel at all. */
  lemma VerticalCoversNothing(x0: int, y0: int, y1: int, px: int, py: int)
    ensures !Covers(x0, y0, x0, y1, px, py)
  {
  }

  /** A horizontal segment covers exactly the pixels of its row between the
      endpoints. */
  lemma HorizontalSpan(x0: int, y0: int, x1: int, px: int, py: int)
    requires x0 != x1
    ensures Covers(x0, y0, x1, y0, px, py) <==> py == y0 && Min(x0, x1) <= px <= Max(x0, x1)
  {
    NearLineExact(x0, y0, x1, y0, px, py);
    if py == y0 {
      assert Cross(x0, y0, x1, y0, px, py) == 0;
    }
  }

  /** One thread of Kernel_Draw_Line. The thread writes its own pixel and no
      other. */
  method DrawLine(index: int, drawCall: LineDrawCall, output: DeviceBuffer)
    requires output.Valid() && 0 <= index < output.buffer.Length
    modifies output.buffer
    ensures output.width != 0
    ensures output.buffer[..] == old(output.buffer[..])[index :=
      if CallCovers(drawCall, Coordinates(output.width, index).0, Coordinates(output.width, index).1)
      then drawCall.Color else old(output.buffer[index])]
  {
    var (x, y) := Coordinates(output.width, index);
    var minX := Min(drawCall.X0, drawCall.X1);
    var maxX := Max(drawCall.X0, drawCall.X1);
    var minY := Min(drawCall.Y0, drawCall.Y1);
    var maxY := Max(drawCall.Y0, drawCall.Y1);
    if x < minX || x > maxX || y < minY || y > maxY {
      return;
    }
    // the NaN distance of a vertical segment fails the comparison
    if drawCall.X0 == drawCall.X1 {
      return;
    }
    var m := (drawCall.Y0 - drawCall.Y1) as real / (drawCall.X0 - drawCall.X1) as real;
    var b := drawCall.Y0 as real - m * drawCall.X0 as real;
    var e := m * x as real - y as real + b;
    if 4.0 * (e * e) < m * m + 1.0 {
      output.SetPixelAt(x, y, drawCall.Color);
    }
  }

  /** One thread of Kernel_Draw_Lines: pixel index.X against
      drawCalls[index.Y], the same code as Kernel_Draw_Line. */
  method DrawLines(index: int, call: int, drawCalls: seq<LineDrawCall>, output: DeviceBuffer)
    requires output.Valid() && 0 <= index < output.buffer.Length && 0 <= call < |drawCalls|
    modifies output.buffer
    ensures output.width != 0
    ensures output.buffer[..] == old(output.buffer[..])[index :=
      if CallCovers(drawCalls[call], Coordinates(output.width, index).0, Coordinates(output.width, index).1)
      then drawCalls[call].Color else old(output.buffer[index])]
  {
    DrawLine(index, drawCalls[call], output);
  }
}
