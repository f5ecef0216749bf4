/** The parameter normalisation both front ends apply before a call reaches
    a kernel (RasterGL.cs and PixelGL.cs): lines and rectangles are turned so
    that x0 <= x1, triangles are sorted by y with three compare-and-swaps. */
module Normalize {
  import opened Surface
  import LineKernel
  import TriangleKernel
  import RectangleKernel

  /** The line call DrawLine builds. */
  function OrderedLine(x0: int, y0: int, x1: int, y1: int, color: Color): LineKernel.LineDrawCall
  {
    var r := OrderedByX(x0, y0, x1, y1);
    LineKernel.LineDrawCall(r.0, r.1, r.2, r.3, color)
  }

  /** The rectangle call DrawRectangle and FillRectangle build. */
  function OrderedRectangle(x0: int, y0: int, x1: int, y1: int, color: Color): RectangleKernel.RectangleDrawCall
  {
    var r := OrderedByX(x0, y0, x1, y1);
    RectangleKernel.RectangleDrawCall(r.0, r.1, r.2, r.3, color)
  }

  /** The triangle call DrawTriangle and FillTriangle build. */
  function SortedTriangle(x0: int, y0: int, x1: int, y1: int, x2: int, y2: int, color: Color): TriangleKernel.TriangleDrawCall
  {
    var r := SortedByY(x0, y0, x1, y1, x2, y2);
    TriangleKernel.TriangleDrawCall(r.0, r.1, r.2, r.3, r.4, r.5, color)
  }

  /** All three vertices on one row: the front ends drop such a triangle. */
  predicate Flat(y0: int, y1: int, y2: int)
  {
    y0 == y1 && y0 == y2
  }
  /** The endpoints (x0, y0), (x1, y1) swapped as a pair when x0 > x1. */
  function OrderedByX(x0: int, y0: int, x1: int, y1: int): (r: (int, int, int, int))
    ensures r.0 <= r.2
    ensures multiset{(r.0, r.1), (r.2, r.3)} == multiset{(x0, y0), (x1, y1)}
    ensures x0 <= x1 ==> r == (x0, y0, x1, y1)
  {
    if x0 > x1 then (x1, y1, x0, y0) else (x0, y0, x1, y1)
  }

  /** The vertices after the swaps of v0/v1, v0/v2 and v1/v2, each taken when
      the first has the larger y. */
  function SortedByY(x0: int, y0: int, x1: int, y1: int, x2: int, y2: int): (r: (int, int, int, int, int, int))
    ensures r.1 <= r.3 <= r.5
    ensures multiset{(r.0, r.1), (r.2, r.3), (r.4, r.5)} == multiset{(x0, y0), (x1, y1), (x2, y2)}
  {
    // v0/v1: (ax, ay) is now v0 and (bx, bY) v1
    var (ax, ay, bx, bY) := if y0 > y1 then (x1, y1, x0, y0) else (x0, y0, x1, y1);
    // v0/v2: (cx, cy) is now v0 and (dx, dy) v2
    var (cx, cy, dx, dy) := if ay > y2 then (x2, y2, ax, ay) else (ax, ay, x2, y2);
    // v1/v2
    var (ex, ey, fx, fy) := if bY > dy then (dx, dy, bx, bY) else (bx, bY, dx, dy);
    (cx, cy, ex, ey, fx, fy)
  }

  /** A triangle already sorted by y is passed on as it is. */
  lemma SortedTriangleUntouched(x0: int, y0: int, x1: int, y1: int, x2: int, y2: int)
    requires y0 <= y1 <= y2
    ensures SortedByY(x0, y0, x1, y1, x2, y2) == (x0, y0, x1, y1, x2, y2)
  {
  }

  /** The sort does not fix the winding: a triangle already sorted by y and
      its mirror image both pass through it unchanged, and exactly one of
      the two fills anything. */
  lemma SortDoesNotFixWinding(c: TriangleKernel.TriangleDrawCall, px: int, py: int)
    requires c.Y0 <= c.Y1 <= c.Y2 && TriangleKernel.TwiceArea(c) != 0
    ensures SortedTriangle(c.X0, c.Y0, c.X1, c.Y1, c.X2, c.Y2, c.Color) == c
    ensures var m := TriangleKernel.Mirror(c);
      SortedTriangle(m.X0, m.Y0, m.X1, m.Y1, m.X2, m.Y2, m.Color) == m
    ensures TriangleKernel.FillCovers(c, px, py) ==> !TriangleKernel.FillCovers(TriangleKernel.Mirror(c), px, py)
    ensures TriangleKernel.FillCovers(c, c.X0, c.Y0) || TriangleKernel.FillCovers(TriangleKernel.Mirror(c), -c.X0, c.Y0)
  {
    var m := TriangleKernel.Mirror(c);
    SortedTriangleUntouched(c.X0, c.Y0, c.X1, c.Y1, c.X2, c.Y2);
    SortedTriangleUntouched(m.X0, m.Y0, m.X1, m.Y1, m.X2, m.Y2);
    TriangleKernel.WindingDecidesFill(c, px, py);
  }

  /** Sorting is idempotent. */
  lemma SortIdempotent(x0: int, y0: int, x1: int, y1: int, x2: int, y2: int)
    ensures var r := SortedByY(x0, y0, x1, y1, x2, y2);
      SortedByY(r.0, r.1, r.2, r.3, r.4, r.5) == r
  {
    var r := SortedByY(x0, y0, x1, y1, x2, y2);
    SortedTriangleUntouched(r.0, r.1, r.2, r.3, r.4, r.5);
  }

  /** Ordering by x is idempotent. */
  lemma OrderIdempotent(x0: int, y0: int, x1: int, y1: int)
    ensures var r := OrderedByX(x0, y0, x1, y1);
      OrderedByX(r.0, r.1, r.2, r.3) == r
  {
  }
}
