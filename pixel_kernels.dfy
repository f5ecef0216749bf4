/** RyCL/PixelKernels.cs: the immediate-mode kernels, one call per launch,
    with the draw call passed as loose integers. Each makes the same decision
    as the matching kernel of the batched rasteriser. A launch covers
    Index1D(Count): every pixel once. */
module PixelKernels {
  import opened Surface
  import LineKernel
  import TriangleKernel
  import RectangleKernel
  import CircleKernel
  import opened Launch

  /** Kernel_Pixel_Line. */
  method Line(index: int, x0: int, y0: int, x1: int, y1: int, color: Color, output: DeviceBuffer)
    requires output.Valid() && 0 <= index < output.buffer.Length
    modifies output.buffer
    ensures output.width != 0
    ensures output.buffer[..] == old(output.buffer[..])[index :=
      if LineKernel.Covers(x0, y0, x1, y1, Coordinates(output.width, index).0, Coordinates(output.width, index).1)
      then color else old(output.buffer[index])]
  {
    LineKernel.DrawLine(index, LineKernel.LineDrawCall(x0, y0, x1, y1, color), output);
  }

  /** Kernel_Pixel_Triangle: three Kernel_Pixel_Line tests on the same pixel. */
  method Triangle(index: int, x0: int, y0: int, x1: int, y1: int, x2: int, y2: int, color: Color, output: DeviceBuffer)
    requires output.Valid() && 0 <= index < output.buffer.Length
    modifies output.buffer
    ensures output.width != 0
    ensures output.buffer[..] == old(output.buffer[..])[index :=
      if TriangleKernel.StrokeCovers(TriangleKernel.TriangleDrawCall(x0, y0, x1, y1, x2, y2, color),
           Coordinates(output.width, index).0, Coordinates(output.width, index).1)
      then color else old(output.buffer[index])]
  {
    Line(index, x0, y0, x1, y1, color, output);
    Line(index, x1, y1, x2, y2, color, output);
    Line(index, x2, y2, x0, y0, color, output);
  }

  /** Kernel_Pixel_Triangle_Fill. */
  method TriangleFill(index: int, x0: int, y0: int, x1: int, y1: int, x2: int, y2: int, color: Color, output: DeviceBuffer)
    requires output.Valid() && 0 <= index < output.buffer.Length
    modifies output.buffer
    ensures output.width != 0
    ensures output.buffer[..] == old(output.buffer[..])[index :=
      if TriangleKernel.FillCovers(TriangleKernel.TriangleDrawCall(x0, y0, x1, y1, x2, y2, color),
           Coordinates(output.width, index).0, Coordinates(output.width, index).1)
      then color else old(output.buffer[index])]
  {
    TriangleKernel.FillTriangle(index, TriangleKernel.TriangleDrawCall(x0, y0, x1, y1, x2, y2, color), output);
  }

  /** Kernel_Pixel_Rectangle. */
  method Rectangle(index: int, x0: int, y0: int, x1: int, y1: int, color: Color, output: DeviceBuffer)
    requires output.Valid() && 0 <= index < output.buffer.Length
    modifies output.buffer
    ensures output.width != 0
    ensures output.buffer[..] == old(output.buffer[..])[index :=
      if RectangleKernel.StrokeCovers(RectangleKernel.RectangleDrawCall(x0, y0, x1, y1, color),
           Coordinates(output.width, index).0, Coordinates(output.width, index).1)
      then color else old(output.buffer[index])]
  {
    RectangleKernel.DrawRectangle(index, RectangleKernel.RectangleDrawCall(x0, y0, x1, y1, color), output);
  }

  /** Kernel_Pixel_Rectangle_Fill. */
  method RectangleFill(index: int, x0: int, y0: int, x1: int, y1: int, color: Color, output: DeviceBuffer)
    requires output.Valid() && 0 <= index < output.buffer.Length
    modifies output.buffer
    ensures output.width != 0
    ensures output.buffer[..] == old(output.buffer[..])[index :=
      if RectangleKernel.FillCovers(RectangleKernel.RectangleDrawCall(x0, y0, x1, y1, color),
           Coordinates(output.width, index).0, Coordinates(output.width, index).1)
      then color else old(output.buffer[index])]
  {
    RectangleKernel.FillRectangle(index, RectangleKernel.RectangleDrawCall(x0, y0, x1, y1, color), output);
  }

  /** Kernel_Pixel_Circle. */
  method Circle(index: int, x0: int, y0: int, radius: int, color: Color, output: DeviceBuffer)
    requires output.Valid() && 0 <= index < output.buffer.Length
    modifies output.buffer
    ensures output.width != 0
    ensures output.buffer[..] == old(output.buffer[..])[index :=
      if CircleKernel.StrokeCovers(CircleKernel.CircleDrawCall(x0, y0, radius, color),
           Coordinates(output.width, index).0, Coordinates(output.width, index).1)
      then color else old(output.buffer[index])]
  {
    CircleKernel.DrawCircle(index, CircleKernel.CircleDrawCall(x0, y0, radius, color), output);
  }

  /** Kernel_Pixel_Circle_Fill. */
  method CircleFill(index: int, x0: int, y0: int, radius: int, color: Color, output: DeviceBuffer)
    requires output.Valid() && 0 <= index < output.buffer.Length
    modifies output.buffer
    ensures output.width != 0
    ensures output.buffer[..] == old(output.buffer[..])[index :=
      if CircleKernel.FillCovers(CircleKernel.CircleDrawCall(x0, y0, radius, color),
           Coordinates(output.width, index).0, Coordinates(output.width, index).1)
      then color else old(output.buffer[index])]
  {
    CircleKernel.FillCircle(index, CircleKernel.CircleDrawCall(x0, y0, radius, color), output);
  }

  /** The thread for pixel index of the kernel the call selects. */
  method Thread(c: Call, index: int, output: DeviceBuffer)
    requires output.Valid() && 0 <= index < output.buffer.Length
    modifies output.buffer
    ensures output.buffer[..] == old(output.buffer[..])[index :=
      if Hit(c, output.width, index) then ColorOf(c) else old(output.buffer[index])]
  {
    match c
    case LineStroke(l) => Line(index, l.X0, l.Y0, l.X1, l.Y1, l.Color, output);
    case TriangleStroke(t) => Triangle(index, t.X0, t.Y0, t.X1, t.Y1, t.X2, t.Y2, t.Color, output);
    case TriangleFill(t) => TriangleFill(index, t.X0, t.Y0, t.X1, t.Y1, t.X2, t.Y2, t.Color, output);
    case RectangleStroke(r) => Rectangle(index, r.X0, r.Y0, r.X1, r.Y1, r.Color, output);
    case RectangleFill(r) => RectangleFill(index, r.X0, r.Y0, r.X1, r.Y1, r.Color, output);
    case CircleStroke(k) => Circle(index, k.X, k.Y, k.Radius, k.Color, output);
    case CircleFill(k) => CircleFill(index, k.X, k.Y, k.Radius, k.Color, output);
  }

  /** A launch of one call over Index1D(Count): afterwards exactly the pixels
      the call covers hold its colour and every other pixel is unchanged. */
  method Run(c: Call, output: DeviceBuffer)
    requires output.Valid()
    modifies output.buffer
    ensures output.buffer[..] == Paint(old(output.buffer[..]), output.width, c)
  {
    var i := 0;
    while i < output.buffer.Length
      invariant 0 <= i <= output.buffer.Length
      invariant forall k :: 0 <= k < i ==> output.buffer[k] == Paint(old(output.buffer[..]), output.width, c)[k]
      invariant forall k :: i <= k < output.buffer.Length ==> output.buffer[k] == old(output.buffer[k])
    {
      Thread(c, i, output);
      i := i + 1;
    }
  }
}
