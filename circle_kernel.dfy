/** RyCL/Graphics/Kernels/CircleKernel.cs: the disc and the annulus around a
    centre. The kernels compare the double square root of the integer squared
    distance; the model compares squares, and the lemmas below show that this
    is the comparison of the true distance for any square root d. */
module CircleKernel {
  import opened Surface
  import opened Reals

  datatype CircleDrawCall = CircleDrawCall(X: int, Y: int, Radius: int, Color: Color)

  /** The thickness of the stroked ring beyond the radius. */
  const RingWidth: real := 0.98

  /** The squared distance of a pixel from the centre, in integers. */
  function DistanceSquared(c: CircleDrawCall, px: int, py: int): int
  {
    (px - c.X) * (px - c.X) + (py - c.Y) * (py - c.Y)
  }

  /** distance <= radius, for a distance whose square is n. */
  predicate FillTest(n: int, r: int)
  {
    0 <= r && n <= r * r
  }

  /** distance < radius, the stroke kernel's first rejection. */
  predicate Inside(n: int, r: int)
  {
    0 < r && n < r * r
  }

  /** distance > radius + 0.98, the stroke kernel's second rejection. */
  predicate Beyond(n: int, r: int)
  {
    var t := r as real + RingWidth;
    t < 0.0 || t * t < n as real
  }

  /** The stroke kernel writes when neither rejection applies. */
  predicate StrokeTest(n: int, r: int)
  {
    !Inside(n, r) && !Beyond(n, r)
  }

  /** Kernel_Fill_Circle's decision. */
  predicate FillCovers(c: CircleDrawCall, px: int, py: int)
  {
    FillTest(DistanceSquared(c, px, py), c.Radius)
  }

  /** Kernel_Draw_Circle's decision. */
  predicate StrokeCovers(c: CircleDrawCall, px: int, py: int)
  {
    StrokeTest(DistanceSquared(c, px, py), c.Radius)
  }

  lemma SquaredDistanceNonneg(c: CircleDrawCall, px: int, py: int)
    ensures DistanceSquared(c, px, py) >= 0
  {
    var dx := px - c.X;
    var dy := py - c.Y;
    assert dx * dx >= 0 by {
      if dx < 0 { assert dx * dx == (-dx) * (-dx); }
    }
    assert dy * dy >= 0 by {
      if dy < 0 { assert dy * dy == (-dy) * (-dy); }
    }
  }

  /** The fill test is sqrt(n) <= r. */
  lemma FillTestMatchesDistance(n: int, r: int, d: real)
    requires d >= 0.0 && d * d == n as real
    ensures FillTest(n, r) <==> d <= r as real
  {
    var R := r as real;
    CastProduct(r, r);
    if r >= 0 {
      SquareLess(R, d);
    }
  }

  /** The first rejection is sqrt(n) < r. */
  lemma InsideMatchesDistance(n: int, r: int, d: real)
    requires d >= 0.0 && d * d == n as real
    ensures Inside(n, r) <==> d < r as real
  {
    var R := r as real;
    CastProduct(r, r);
    if r > 0 {
      SquareLess(d, R);
    }
  }

  /** The second rejection is sqrt(n) > r + 0.98. */
  lemma BeyondMatchesDistance(n: int, r: int, d: real)
    requires d >= 0.0 && d * d == n as real
    ensures Beyond(n, r) <==> d > r as real + RingWidth
  {
    var t := r as real + RingWidth;
    if t >= 0.0 {
      SquareLess(t, d);
    }
  }

  /** The stroke test is r <= sqrt(n) <= r + 0.98, inclusive at both ends. */
  lemma StrokeTestMatchesDistance(n: int, r: int, d: real)
    requires d >= 0.0 && d * d == n as real
    ensures StrokeTest(n, r) <==> r as real <= d <= r as real + RingWidth
  {
    InsideMatchesDistance(n, r, d);
    BeyondMatchesDistance(n, r, d);
  }

  /** A negative radius fills nothing. */
  lemma NegativeRadiusFillsNothing(c: CircleDrawCall, px: int, py: int)
    requires c.Radius < 0
    ensures !FillCovers(c, px, py)
  {
  }

  /** A non-negative radius fills at least the centre. */
  lemma CentreFilled(c: CircleDrawCall)
    requires c.Radius >= 0
    ensures FillCovers(c, c.X, c.Y)
  {
    assert DistanceSquared(c, c.X, c.Y) == 0;
    assert c.Radius * c.Radius >= 0 by {
      SquaredDistanceNonneg(CircleDrawCall(0, 0, 0, 0), c.Radius, 0);
    }
  }

  /** The stroke never writes a pixel strictly closer than the radius. */
  lemma StrokeAvoidsInside(c: CircleDrawCall, px: int, py: int)
    requires DistanceSquared(c, px, py) < c.Radius * c.Radius
    ensures !StrokeCovers(c, px, py)
  {
    SquaredDistanceNonneg(c, px, py);
    if c.Radius < 0 {
      assert c.Radius as real + RingWidth < 0.0;
    }
  }

  /** Stroke and fill of the same circle meet only at distance exactly r. */
  lemma StrokeMeetsFillOnRadius(c: CircleDrawCall, px: int, py: int)
    requires StrokeCovers(c, px, py) && FillCovers(c, px, py)
    ensures DistanceSquared(c, px, py) == c.Radius * c.Radius
  {
    if c.Radius == 0 {
      SquaredDistanceNonneg(c, px, py);
    }
  }

  /** The pixel r to the right of the centre is on the stroke. */
  lemma RadiusPointStroked(c: CircleDrawCall)
    requires c.Radius >= 0
    ensures StrokeCovers(c, c.X + c.Radius, c.Y)
  {
    var r := c.Radius;
    var t := r as real + RingWidth;
    assert DistanceSquared(c, c.X + r, c.Y) == r * r;
    CastProduct(r, r);
    assert t * t == (r as real) * (r as real) + 2.0 * RingWidth * r as real + RingWidth * RingWidth;
  }

  /** Both tests depend on the offset from the centre only through dx² + dy²:
      reflecting the pixel in either axis through the centre, or exchanging
      dx and dy, keeps the squared distance. */
  lemma DistanceSymmetric(c: CircleDrawCall, dx: int, dy: int)
    ensures DistanceSquared(c, c.X - dx, c.Y + dy) == DistanceSquared(c, c.X + dx, c.Y + dy)
    ensures DistanceSquared(c, c.X + dx, c.Y - dy) == DistanceSquared(c, c.X + dx, c.Y + dy)
    ensures DistanceSquared(c, c.X + dy, c.Y + dx) == DistanceSquared(c, c.X + dx, c.Y + dy)
  {
    assert (-dx) * (-dx) == dx * dx;
    assert (-dy) * (-dy) == dy * dy;
  }

  lemma CoversSymmetric(c: CircleDrawCall, dx: int, dy: int)
    ensures FillCovers(c, c.X - dx, c.Y + dy) == FillCovers(c, c.X + dx, c.Y + dy)
    ensures FillCovers(c, c.X + dx, c.Y - dy) == FillCovers(c, c.X + dx, c.Y + dy)
    ensures FillCovers(c, c.X + dy, c.Y + dx) == FillCovers(c, c.X + dx, c.Y + dy)
    ensures StrokeCovers(c, c.X - dx, c.Y + dy) == StrokeCovers(c, c.X + dx, c.Y + dy)
    ensures StrokeCovers(c, c.X + dx, c.Y - dy) == StrokeCovers(c, c.X + dx, c.Y + dy)
    ensures StrokeCovers(c, c.X + dy, c.Y + dx) == StrokeCovers(c, c.X + dx, c.Y + dy)
  {
    DistanceSymmetric(c, dx, dy);
  }

  /** One thread of Kernel_Draw_Circle: return when the distance is below the
      radius or above radius + 0.98, otherwise write. */
  method DrawCircle(index: int, drawCall: CircleDrawCall, output: DeviceBuffer)
    requires output.Valid() && 0 <= index < output.buffer.Length
    modifies output.buffer
    ensures output.width != 0
    ensures output.buffer[..] == old(output.buffer[..])[index :=
      if StrokeCovers(drawCall, Coordinates(output.width, index).0, Coordinates(output.width, index).1)
      then drawCall.Color else old(output.buffer[index])]
  {
    var (x, y) := Coordinates(output.width, index);
    var n := (x - drawCall.X) * (x - drawCall.X) + (y - drawCall.Y) * (y - drawCall.Y);
    var r := drawCall.Radius;
    var t := r as real + RingWidth;
    // distance < Radius, and distance > Radius + 0.98, compared squared
    if (0 < r && n < r * r) || (t < 0.0 || t * t < n as real) {
      return;
    }
    output.SetPixelAt(x, y, drawCall.Color);
  }

  /** One thread of Kernel_Draw_Circles: pixel index.X against
      drawCalls[index.Y]. */
  method DrawCircles(index: int, call: int, drawCalls: seq<CircleDrawCall>, output: DeviceBuffer)
    requires output.Valid() && 0 <= index < output.buffer.Length && 0 <= call < |drawCalls|
    modifies output.buffer
    ensures output.width != 0
    ensures output.buffer[..] == old(output.buffer[..])[index :=
      if StrokeCovers(drawCalls[call], Coordinates(output.width, index).0, Coordinates(output.width, index).1)
      then drawCalls[call].Color else old(output.buffer[index])]
  {
    DrawCircle(index, drawCalls[call], output);
  }

  /** One thread of Kernel_Fill_Circle. */
  method FillCircle(index: int, drawCall: CircleDrawCall, output: DeviceBuffer)
    requires output.Valid() && 0 <= index < output.buffer.Length
    modifies output.buffer
    ensures output.width != 0
    ensures output.buffer[..] == old(output.buffer[..])[index :=
      if FillCovers(drawCall, Coordinates(output.width, index).0, Coordinates(output.width, index).1)
      then drawCall.Color else old(output.buffer[index])]
  {
    var (x, y) := Coordinates(output.width, index);
    var xDelta := x - drawCall.X;
    var yDelta := y - drawCall.Y;
    // sqrt(xDelta² + yDelta²) <= Radius, compared squared
    if 0 <= drawCall.Radius && xDelta * xDelta + yDelta * yDelta <= drawCall.Radius * drawCall.Radius {
      output.SetPixelAt(x, y, drawCall.Color);
    }
  }

  /** One thread of Kernel_Fill_Circles: pixel index.X against
      drawCalls[index.Y]. */
  method FillCircles(index: int, call: int, drawCalls: seq<CircleDrawCall>, output: DeviceBuffer)
    requires output.Valid() && 0 <= index < output.buffer.Length && 0 <= call < |drawCalls|
    modifies output.buffer
    ensures output.width != 0
    ensures output.buffer[..] == old(output.buffer[..])[index :=
      if FillCovers(drawCalls[call], Coordinates(output.width, index).0, Coordinates(output.width, index).1)
      then drawCalls[call].Color else old(output.buffer[index])]
  {
    FillCircle(index, drawCalls[call], output);
  }
}
