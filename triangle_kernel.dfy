/** RyCL/Graphics/Kernels/TriangleKernel.cs: a stroked triangle is three line
    tests over the edges v0v1, v1v2 and v2v0; a filled triangle is the test
    that three integer edge functions are all non-negative. */
module TriangleKernel {
  import opened Surface
  import LineKernel

  datatype TriangleDrawCall = TriangleDrawCall(X0: int, Y0: int, X1: int, Y1: int, X2: int, Y2: int, Color: Color)

  /** Kernel_Draw_Triangle's decision: one of the three edge line tests passes. */
  predicate StrokeCovers(c: TriangleDrawCall, px: int, py: int)
  {
    LineKernel.Covers(c.X0, c.Y0, c.X1, c.Y1, px, py) ||
    LineKernel.Covers(c.X1, c.Y1, c.X2, c.Y2, px, py) ||
    LineKernel.Covers(c.X2, c.Y2, c.X0, c.Y0, px, py)
  }

  /** The edge function of the edge v1v2, as the kernel writes it. */
  function W0(c: TriangleDrawCall, px: int, py: int): int
  {
    (c.X1 - c.X2) * (py - c.Y2) - (c.Y1 - c.Y2) * (px - c.X2)
  }

  /** The edge function of the edge v2v0, as the kernel writes it. */
  function W1(c: TriangleDrawCall, px: int, py: int): int
  {
    (c.X2 - c.X0) * (py - c.Y0) - (c.Y2 - c.Y0) * (px - c.X0)
  }

  /** The edge function of the edge v0v1, as the kernel writes it. */
  function W2(c: TriangleDrawCall, px: int, py: int): int
  {
    (c.X0 - c.X1) * (py - c.Y1) - (c.Y0 - c.Y1) * (px - c.X1)
  }

  /** Kernel_Fill_Triangle's decision. */
  predicate FillCovers(c: TriangleDrawCall, px: int, py: int)
  {
    W0(c, px, py) >= 0 && W1(c, px, py) >= 0 && W2(c, px, py) >= 0
  }

  /** Twice the signed area of the triangle in the orientation the edge
      functions assume: W0 evaluated at v0. */
  function TwiceArea(c: TriangleDrawCall): int
  {
    (c.X1 - c.X2) * (c.Y0 - c.Y2) - (c.Y1 - c.Y2) * (c.X0 - c.X2)
  }

  /** Each edge function is zero at both endpoints of its edge. */
  lemma EdgeFunctionsVanish(c: TriangleDrawCall)
    ensures W0(c, c.X1, c.Y1) == 0 && W0(c, c.X2, c.Y2) == 0
    ensures W1(c, c.X2, c.Y2) == 0 && W1(c, c.X0, c.Y0) == 0
    ensures W2(c, c.X0, c.Y0) == 0 && W2(c, c.X1, c.Y1) == 0
  {
  }

  /** The three edge functions add up to the same constant at every pixel:
      they are barycentric coordinates scaled by twice the area. */
  lemma EdgeSum(c: TriangleDrawCall, px: int, py: int)
    ensures W0(c, px, py) + W1(c, px, py) + W2(c, px, py) == TwiceArea(c)
  {
    var u := px - c.X2;
    var v := py - c.Y2;
    assert W0(c, px, py) == (c.X1 - c.X2) * v - (c.Y1 - c.Y2) * u;
    assert W1(c, px, py) == (c.X2 - c.X0) * (v + c.Y2 - c.Y0) - (c.Y2 - c.Y0) * (u + c.X2 - c.X0);
    assert W2(c, px, py) == (c.X0 - c.X1) * (v + c.Y2 - c.Y1) - (c.Y0 - c.Y1) * (u + c.X2 - c.X1);
  }

  /** A triangle whose vertices run the other way round fills nothing: the
      edge functions cannot all be non-negative when their sum is negative. */
  lemma NegativeAreaFillsNothing(c: TriangleDrawCall, px: int, py: int)
    requires TwiceArea(c) < 0
    ensures !FillCovers(c, px, py)
  {
    EdgeSum(c, px, py);
  }

  /** With the orientation the kernel expects, every vertex is filled. */
  lemma VerticesFilled(c: TriangleDrawCall)
    requires TwiceArea(c) >= 0
    ensures FillCovers(c, c.X0, c.Y0) && FillCovers(c, c.X1, c.Y1) && FillCovers(c, c.X2, c.Y2)
  {
    EdgeFunctionsVanish(c);
    EdgeSum(c, c.X0, c.Y0);
    EdgeSum(c, c.X1, c.Y1);
    EdgeSum(c, c.X2, c.Y2);
  }

  /** For three collinear vertices the fill test passes exactly where all
      three edge functions vanish, which is the whole infinite line through
      them, not only the segment between them. */
  lemma DegenerateFillIsLine(c: TriangleDrawCall, px: int, py: int)
    requires TwiceArea(c) == 0
    ensures FillCovers(c, px, py) <==> W0(c, px, py) == 0 && W1(c, px, py) == 0 && W2(c, px, py) == 0
  {
    EdgeSum(c, px, py);
  }

  /** A collinear triangle fills every pixel v0 + t*(v1 - v0) of the line
      through v0 and v1, for every integer t: far beyond the segment on both
      sides, not only between the vertices. */
  lemma CollinearFillReachesBeyond(c: TriangleDrawCall, t: int)
    requires TwiceArea(c) == 0
    ensures FillCovers(c, c.X0 + t * (c.X1 - c.X0), c.Y0 + t * (c.Y1 - c.Y0))
  {
    var dx, dy := c.X1 - c.X0, c.Y1 - c.Y0;
    var px, py := c.X0 + t * dx, c.Y0 + t * dy;
    assert W2(c, px, py) == (1 - t) * ((c.X0 - c.X1) * (c.Y0 - c.Y1) - (c.Y0 - c.Y1) * (c.X0 - c.X1)) by {
      assert px - c.X1 == (1 - t) * (c.X0 - c.X1);
      assert py - c.Y1 == (1 - t) * (c.Y0 - c.Y1);
    }
    assert W1(c, px, py) == t * ((c.X2 - c.X0) * dy - (c.Y2 - c.Y0) * dx);
    assert (c.X2 - c.X0) * dy - (c.Y2 - c.Y0) * dx == TwiceArea(c);
    EdgeSum(c, px, py);
  }

  /** The mirror image across the column x = 0: the same rows, and so the
      same order by y, with the winding reversed. */
  function Mirror(c: TriangleDrawCall): TriangleDrawCall
  {
    TriangleDrawCall(-c.X0, c.Y0, -c.X1, c.Y1, -c.X2, c.Y2, c.Color)
  }

  /** Whether a triangle fills anything is decided by its winding: of a
      triangle that is not collinear and its mirror image, exactly one fills
      its vertices and the other fills no pixel at all. */
  lemma WindingDecidesFill(c: TriangleDrawCall, px: int, py: int)
    requires TwiceArea(c) != 0
    ensures TwiceArea(Mirror(c)) == -TwiceArea(c)
    ensures TwiceArea(c) > 0 ==> FillCovers(c, c.X0, c.Y0) && !FillCovers(Mirror(c), px, py)
    ensures TwiceArea(c) < 0 ==> !FillCovers(c, px, py) && FillCovers(Mirror(c), -c.X0, c.Y0)
  {
    var m := Mirror(c);
    assert TwiceArea(m) == -TwiceArea(c) by {
      assert TwiceArea(m) == (c.X2 - c.X1) * (c.Y0 - c.Y2) - (c.Y1 - c.Y2) * (c.X2 - c.X0);
    }
    if TwiceArea(c) > 0 {
      VerticesFilled(c);
      NegativeAreaFillsNothing(m, px, py);
    } else {
      NegativeAreaFillsNothing(c, px, py);
      VerticesFilled(m);
    }
  }

  /** Every stroked pixel lies in the bounding box of one of the edges. */
  lemma StrokeInSomeEdgeBox(c: TriangleDrawCall, px: int, py: int)
    requires StrokeCovers(c, px, py)
    ensures LineKernel.InBounds(c.X0, c.Y0, c.X1, c.Y1, px, py) ||
            LineKernel.InBounds(c.X1, c.Y1, c.X2, c.Y2, px, py) ||
            LineKernel.InBounds(c.X2, c.Y2, c.X0, c.Y0, px, py)
  {
  }

  /** With x0 != x1 every vertex of a stroked triangle with no vertical edge
      is drawn. */
  lemma StrokeDrawsVertices(c: TriangleDrawCall)
    requires c.X0 != c.X1 && c.X1 != c.X2
    ensures StrokeCovers(c, c.X0, c.Y0) && StrokeCovers(c, c.X1, c.Y1) && StrokeCovers(c, c.X2, c.Y2)
  {
    LineKernel.EndpointsCovered(c.X0, c.Y0, c.X1, c.Y1);
    LineKernel.EndpointsCovered(c.X1, c.Y1, c.X2, c.Y2);
  }

  /** TriangleKernel's private Kernel_Draw_Line: the same test as the line
      kernel, on loose coordinates. */
  method DrawEdge(index: int, x0: int, y0: int, x1: int, y1: int, color: Color, output: DeviceBuffer)
    requires output.Valid() && 0 <= index < output.buffer.Length
    modifies output.buffer
    ensures output.width != 0
    ensures output.buffer[..] == old(output.buffer[..])[index :=
      if LineKernel.Covers(x0, y0, x1, y1, Coordinates(output.width, index).0, Coordinates(output.width, index).1)
      then color else old(output.buffer[index])]
  {
    LineKernel.DrawLine(index, LineKernel.LineDrawCall(x0, y0, x1, y1, color), output);
  }

  /** One thread of Kernel_Draw_Triangle: three edge tests in turn on the
      same pixel, each overwriting it when it passes. */
  method DrawTriangle(index: int, drawCall: TriangleDrawCall, output: DeviceBuffer)
    requires output.Valid() && 0 <= index < output.buffer.Length
    modifies output.buffer
    ensures output.width != 0
    ensures output.buffer[..] == old(output.buffer[..])[index :=
      if StrokeCovers(drawCall, Coordinates(output.width, index).0, Coordinates(output.width, index).1)
      then drawCall.Color else old(output.buffer[index])]
  {
    DrawEdge(index, drawCall.X0, drawCall.Y0, drawCall.X1, drawCall.Y1, drawCall.Color, output);
    DrawEdge(index, drawCall.X1, drawCall.Y1, drawCall.X2, drawCall.Y2, drawCall.Color, output);
    DrawEdge(index, drawCall.X2, drawCall.Y2, drawCall.X0, drawCall.Y0, drawCall.Color, output);
  }

  /** One thread of Kernel_Draw_Triangles: pixel index.X against
      drawCalls[index.Y]. */
  method DrawTriangles(index: int, call: int, drawCalls: seq<TriangleDrawCall>, output: DeviceBuffer)
    requires output.Valid() && 0 <= index < output.buffer.Length && 0 <= call < |drawCalls|
    modifies output.buffer
    ensures output.width != 0
    ensures output.buffer[..] == old(output.buffer[..])[index :=
      if StrokeCovers(drawCalls[call], Coordinates(output.width, index).0, Coordinates(output.width, index).1)
      then drawCalls[call].Color else old(output.buffer[index])]
  {
    DrawTriangle(index, drawCalls[call], output);
  }

  /** One thread of Kernel_Fill_Triangle. */
  method FillTriangle(index: int, drawCall: TriangleDrawCall, output: DeviceBuffer)
    requires output.Valid() && 0 <= index < output.buffer.Length
    modifies output.buffer
    ensures output.width != 0
    ensures output.buffer[..] == old(output.buffer[..])[index :=
      if FillCovers(drawCall, Coordinates(output.width, index).0, Coordinates(output.width, index).1)
      then drawCall.Color else old(output.buffer[index])]
  {
    var (x, y) := Coordinates(output.width, index);
    var w0 := (drawCall.X1 - drawCall.X2) * (y - drawCall.Y2) - (drawCall.Y1 - drawCall.Y2) * (x - drawCall.X2);
    var w1 := (drawCall.X2 - drawCall.X0) * (y - drawCall.Y0) - (drawCall.Y2 - drawCall.Y0) * (x - drawCall.X0);
    var w2 := (drawCall.X0 - drawCall.X1) * (y - drawCall.Y1) - (drawCall.Y0 - drawCall.Y1) * (x - drawCall.X1);
    if w0 >= 0 && w1 >= 0 && w2 >= 0 {
      output.SetPixelAt(x, y, drawCall.Color);
    }
  }

  /** One thread of Kernel_Fill_Triangles: pixel index.X against
      drawCalls[index.Y]. */
  method FillTriangles(index: int, call: int, drawCalls: seq<TriangleDrawCall>, output: DeviceBuffer)
    requires output.Valid() && 0 <= index < output.buffer.Length && 0 <= call < |drawCalls|
    modifies output.buffer
    ensures output.width != 0
    ensures output.buffer[..] == old(output.buffer[..])[index :=
      if FillCovers(drawCalls[call], Coordinates(output.width, index).0, Coordinates(output.width, index).1)
      then drawCalls[call].Color else old(output.buffer[index])]
  {
    FillTriangle(index, drawCalls[call], output);
  }
}
