/** RyCL/Graphics/Kernels/RectangleKernel.cs: the inclusive box spanned by
    two corners, and its one-pixel border. */
module RectangleKernel {
  import opened Surface

  datatype RectangleDrawCall = RectangleDrawCall(X0: int, Y0: int, X1: int, Y1: int, Color: Color)

  /** The pixel lies in the inclusive box [minX, maxX] x [minY, maxY]. */
  predicate InBox(x0: int, y0: int, x1: int, y1: int, px: int, py: int)
  {
    Min(x0, x1) <= px <= Max(x0, x1) && Min(y0, y1) <= py <= Max(y0, y1)
  }

  /** The pixel shares a column or a row with one of the box's sides. */
  predicate OnBorderLine(x0: int, y0: int, x1: int, y1: int, px: int, py: int)
  {
    px == Min(x0, x1) || px == Max(x0, x1) || py == Min(y0, y1) || py == Max(y0, y1)
  }

  /** Kernel_Draw_Rectangle's decision. */
  predicate StrokeCovers(c: RectangleDrawCall, px: int, py: int)
  {
    OnBorderLine(c.X0, c.Y0, c.X1, c.Y1, px, py) && InBox(c.X0, c.Y0, c.X1, c.Y1, px, py)
  }

  /** Kernel_Fill_Rectangle's decision. */
  predicate FillCovers(c: RectangleDrawCall, px: int, py: int)
  {
    InBox(c.X0, c.Y0, c.X1, c.Y1, px, py)
  }

  /** The pixel is strictly inside the box. */
  predicate Interior(c: RectangleDrawCall, px: int, py: int)
  {
    Min(c.X0, c.X1) < px < Max(c.X0, c.X1) && Min(c.Y0, c.Y1) < py < Max(c.Y0, c.Y1)
  }

  /** The border is the box without its strict interior: so the stroked set
      lies inside the filled set and leaves the interior alone. */
  lemma StrokeIsFillMinusInterior(c: RectangleDrawCall, px: int, py: int)
    ensures StrokeCovers(c, px, py) <==> FillCovers(c, px, py) && !Interior(c, px, py)
  {
  }

  lemma StrokeWithinFill(c: RectangleDrawCall, px: int, py: int)
    requires StrokeCovers(c, px, py)
    ensures FillCovers(c, px, py)
    ensures Min(c.X0, c.X1) <= px <= Max(c.X0, c.X1) && Min(c.Y0, c.Y1) <= py <= Max(c.Y0, c.Y1)
  {
  }

  lemma StrokeSkipsInterior(c: RectangleDrawCall, px: int, py: int)
    requires Interior(c, px, py)
    ensures !StrokeCovers(c, px, py)
  {
  }

  /** Every corner given is on the border. */
  lemma CornersStroked(c: RectangleDrawCall)
    ensures StrokeCovers(c, c.X0, c.Y0) && StrokeCovers(c, c.X1, c.Y1)
    ensures StrokeCovers(c, c.X0, c.Y1) && StrokeCovers(c, c.X1, c.Y0)
  {
  }

  /** Both tests depend on the corners only through min and max: swapping the
      corners, or only the x values, or only the y values, changes nothing. */
  lemma CornerOrderIrrelevant(c: RectangleDrawCall, px: int, py: int)
    ensures StrokeCovers(c, px, py) == StrokeCovers(c.(X0 := c.X1, Y0 := c.Y1, X1 := c.X0, Y1 := c.Y0), px, py)
    ensures StrokeCovers(c, px, py) == StrokeCovers(c.(X0 := c.X1, X1 := c.X0), px, py)
    ensures StrokeCovers(c, px, py) == StrokeCovers(c.(Y0 := c.Y1, Y1 := c.Y0), px, py)
    ensures FillCovers(c, px, py) == FillCovers(c.(X0 := c.X1, Y0 := c.Y1, X1 := c.X0, Y1 := c.Y0), px, py)
    ensures FillCovers(c, px, py) == FillCovers(c.(X0 := c.X1, X1 := c.X0), px, py)
    ensures FillCovers(c, px, py) == FillCovers(c.(Y0 := c.Y1, Y1 := c.Y0), px, py)
  {
  }

  /** One thread of Kernel_Draw_Rectangle. */
  method DrawRectangle(index: int, drawCall: RectangleDrawCall, output: DeviceBuffer)
    requires output.Valid() && 0 <= index < output.buffer.Length
    modifies output.buffer
    ensures output.width != 0
    ensures output.buffer[..] == old(output.buffer[..])[index :=
      if StrokeCovers(drawCall, Coordinates(output.width, index).0, Coordinates(output.width, index).1)
      then drawCall.Color else old(output.buffer[index])]
  {
    var (x, y) := Coordinates(output.width, index);
    var minX := Min(drawCall.X0, drawCall.X1);
    var maxX := Max(drawCall.X0, drawCall.X1);
    var minY := Min(drawCall.Y0, drawCall.Y1);
    var maxY := Max(drawCall.Y0, drawCall.Y1);
    if (x == minX || x == maxX || y == minY || y == maxY) &&
       (minX <= x && x <= maxX && minY <= y && y <= maxY) {
      output.SetPixelAt(x, y, drawCall.Color);
    }
  }

  /** One thread of Kernel_Draw_Rectangles: pixel index.X against
      drawCalls[index.Y]. */
  method DrawRectangles(index: int, call: int, drawCalls: seq<RectangleDrawCall>, output: DeviceBuffer)
    requires output.Valid() && 0 <= index < output.buffer.Length && 0 <= call < |drawCalls|
    modifies output.buffer
    ensures output.width != 0
    ensures output.buffer[..] == old(output.buffer[..])[index :=
      if StrokeCovers(drawCalls[call], Coordinates(output.width, index).0, Coordinates(output.width, index).1)
      then drawCalls[call].Color else old(output.buffer[index])]
  {
    DrawRectangle(index, drawCalls[call], output);
  }

  /** One thread of Kernel_Fill_Rectangle. */
  method FillRectangle(index: int, drawCall: RectangleDrawCall, output: DeviceBuffer)
    requires output.Valid() && 0 <= index < output.buffer.Length
    modifies output.buffer
    ensures output.width != 0
    ensures output.buffer[..] == old(output.buffer[..])[index :=
      if FillCovers(drawCall, Coordinates(output.width, index).0, Coordinates(output.width, index).1)
      then drawCall.Color else old(output.buffer[index])]
  {
    var (x, y) := Coordinates(output.width, index);
    var minX := Min(drawCall.X0, drawCall.X1);
    var maxX := Max(drawCall.X0, drawCall.X1);
    var minY := Min(drawCall.Y0, drawCall.Y1);
    var maxY := Max(drawCall.Y0, drawCall.Y1);
    if minX <= x && x <= maxX && minY <= y && y <= maxY {
      output.SetPixelAt(x, y, drawCall.Color);
    }
  }

  /** One thread of Kernel_Fill_Rectangles: pixel index.X against
      drawCalls[index.Y]. */
  method FillRectangles(index: int, call: int, drawCalls: seq<RectangleDrawCall>, output: DeviceBuffer)
    requires output.Valid() && 0 <= index < output.buffer.Length && 0 <= call < |drawCalls|
    modifies output.buffer
    ensures output.width != 0
    ensures output.buffer[..] == old(output.buffer[..])[index :=
      if FillCovers(drawCalls[call], Coordinates(output.width, index).0, Coordinates(output.width, index).1)
      then drawCalls[call].Color else old(output.buffer[index])]
  {
    FillRectangle(index, drawCalls[call], output);
  }
}
