/** RyCL/PixelGL.cs: the immediate-mode rasteriser. Every draw or fill call
    normalises its parameters, acquires the device buffer and launches one
    kernel over every pixel of the surface. */
module ImmediateRaster {
  import opened Surface
  import LineKernel
  import TriangleKernel
  import RectangleKernel
  import CircleKernel
  import PixelKernel
  import PixelKernels
  import opened Launch
  import opened Normalize
  import BatchedRaster

  /** The surface state after one immediate call: the device buffer is
      acquired and the call painted into it. */
  function Apply(s: SurfaceState, width: int, c: Call): SurfaceState
  {
    var a := Acquire(s);
    a.(device := Paint(a.device, width, c))
  }

  /** Read back through the indexer, an immediate call shows its colour
      exactly on the pixels it covers and leaves every other pixel as it was
      read before, provided no host write is pending against a device that is
      ahead. */
  lemma ApplyShowsCall(s: SurfaceState, width: int, c: Call, i: int)
    requires Coherent(s) && !Conflicted(s) && 0 <= i < |s.host|
    ensures Apply(s, width, c).syncCpu && !Apply(s, width, c).syncGpu && Apply(s, width, c).host == s.host
    ensures |Logical(Apply(s, width, c))| == |Logical(s)|
    ensures Logical(Apply(s, width, c))[i] == if Hit(c, width, i) then ColorOf(c) else Logical(s)[i]
  {
    AcquireExposesLogical(s);
  }

  /** On a freshly constructed surface the first immediate call exposes
      device memory as it was allocated: a pixel that read back as zero and
      that the call does not cover reads back as whatever device memory held. */
  lemma FreshApplyShowsDeviceMemory(device: seq<Color>, width: int, c: Call, i: int)
    requires 0 <= i < |device| && !Hit(c, width, i)
    ensures Logical(Fresh(device))[i] == 0
    ensures Logical(Apply(Fresh(device), width, c))[i] == device[i]
  {
    FreshSurfaceIsIncoherent(device);
  }

  /** An immediate call has the same effect on the surface as queueing that
      one call in the batched rasteriser and flushing it. */
  lemma ImmediateIsSingletonFlush(s: SurfaceState, s': SurfaceState, width: int, c: Call)
    ensures s' == Apply(s, width, c) <==> BatchedRaster.FlushStep(s, s', width, [c])
  {
    var a := Acquire(s);
    SingletonBatchIsPaint(a.device, s'.device, width, c);
  }

  class PixelGL {
    var disposed: bool
    const buffer: HostBuffer

    ghost predicate Valid()
    {
      buffer.Valid()
    }

    /** A surface of width*height pixels. The choice of accelerator (useCpu)
        has no effect on the model. */
    constructor (width: int, height: int, useCpu: bool)
      requires 0 <= width * height
      ensures Valid() && fresh(buffer) && fresh(buffer.host) && fresh(buffer.memory)
      ensures buffer.width == width && buffer.height == height && buffer.Count() == width * height
      ensures buffer.host[..] == seq(width * height, _ => 0)
      ensures !buffer.syncCpu && !buffer.syncGpu && !buffer.disposed && !disposed
      ensures buffer.State() == Fresh(buffer.memory[..])
    {
      disposed := false;
      buffer := new HostBuffer(width, height);
    }

    /** Fill(color): launch the fill kernel over every pixel. */
    method Fill(color: Color)
      requires Valid()
      modifies buffer`syncCpu, buffer`syncGpu, buffer.memory
      ensures Valid()
      ensures buffer.State() == BatchedRaster.AfterFill(old(buffer.State()), color)
    {
      var db := buffer.GetDeviceBuffer();
      PixelKernel.FillAll(buffer.Count(), color, db);
    }

    /** DrawLine: order the endpoints by x and launch the line kernel. */
    method DrawLine(x0: int, y0: int, x1: int, y1: int, color: Color)
      requires Valid()
      modifies buffer`syncCpu, buffer`syncGpu, buffer.memory
      ensures Valid()
      ensures buffer.State() == Apply(old(buffer.State()), buffer.width, LineStroke(OrderedLine(x0, y0, x1, y1, color)))
    {
      var (ax, ay, bx, bY) := (x0, y0, x1, y1);
      if ax > bx {
        ax, bx := bx, ax;
        ay, bY := bY, ay;
      }
      var db := buffer.GetDeviceBuffer();
      PixelKernels.Run(LineStroke(LineKernel.LineDrawCall(ax, ay, bx, bY, color)), db);
    }

    /** DrawTriangle: a flat triangle changes nothing, not even the
        synchronisation flags; otherwise sort by y and launch. */
    method DrawTriangle(x0: int, y0: int, x1: int, y1: int, x2: int, y2: int, color: Color)
      requires Valid()
      modifies buffer`syncCpu, buffer`syncGpu, buffer.memory
      ensures Valid()
      ensures Flat(y0, y1, y2) ==> buffer.State() == old(buffer.State())
      ensures !Flat(y0, y1, y2) ==>
        buffer.State() == Apply(old(buffer.State()), buffer.width, TriangleStroke(SortedTriangle(x0, y0, x1, y1, x2, y2, color)))
    {
      if y0 == y1 && y0 == y2 {
        return;
      }
      var (ax, ay, bx, bY, cx, cy) := (x0, y0, x1, y1, x2, y2);
      if ay > bY {
        ax, bx := bx, ax;
        ay, bY := bY, ay;
      }
      if ay > cy {
        ax, cx := cx, ax;
        ay, cy := cy, ay;
      }
      if bY > cy {
        bx, cx := cx, bx;
        bY, cy := cy, bY;
      }
      var db := buffer.GetDeviceBuffer();
      PixelKernels.Run(TriangleStroke(TriangleKernel.TriangleDrawCall(ax, ay, bx, bY, cx, cy, color)), db);
    }

    /** DrawRectangle: order the corners by x and launch. */
    method DrawRectangle(x0: int, y0: int, x1: int, y1: int, color: Color)
      requires Valid()
      modifies buffer`syncCpu, buffer`syncGpu, buffer.memory
      ensures Valid()
      ensures buffer.State() ==
        Apply(old(buffer.State()), buffer.width, RectangleStroke(OrderedRectangle(x0, y0, x1, y1, color)))
    {
      var (ax, ay, bx, bY) := (x0, y0, x1, y1);
      if ax > bx {
        ax, bx := bx, ax;
        ay, bY := bY, ay;
      }
      var db := buffer.GetDeviceBuffer();
      PixelKernels.Run(RectangleStroke(RectangleKernel.RectangleDrawCall(ax, ay, bx, bY, color)), db);
    }

    /** DrawCircle: launch with the parameters as given. */
    method DrawCircle(x: int, y: int, radius: int, color: Color)
      requires Valid()
      modifies buffer`syncCpu, buffer`syncGpu, buffer.memory
      ensures Valid()
      ensures buffer.State() ==
        Apply(old(buffer.State()), buffer.width, CircleStroke(CircleKernel.CircleDrawCall(x, y, radius, color)))
    {
      var db := buffer.GetDeviceBuffer();
      PixelKernels.Run(CircleStroke(CircleKernel.CircleDrawCall(x, y, radius, color)), db);
    }

    /** FillTriangle: a flat triangle changes nothing; otherwise sort by y and
        launch the fill kernel. */
    method FillTriangle(x0: int, y0: int, x1: int, y1: int, x2: int, y2: int, color: Color)
      requires Valid()
      modifies buffer`syncCpu, buffer`syncGpu, buffer.memory
      ensures Valid()
      ensures Flat(y0, y1, y2) ==> buffer.State() == old(buffer.State())
      ensures !Flat(y0, y1, y2) ==>
        buffer.State() == Apply(old(buffer.State()), buffer.width, TriangleFill(SortedTriangle(x0, y0, x1, y1, x2, y2, color)))
    {
      if y0 == y1 && y0 == y2 {
        return;
      }
      var (ax, ay, bx, bY, cx, cy) := (x0, y0, x1, y1, x2, y2);
      if ay > bY {
        ax, bx := bx, ax;
        ay, bY := bY, ay;
      }
      if ay > cy {
        ax, cx := cx, ax;
        ay, cy := cy, ay;
      }
      if bY > cy {
        bx, cx := cx, bx;
        bY, cy := cy, bY;
      }
      var db := buffer.GetDeviceBuffer();
      PixelKernels.Run(TriangleFill(TriangleKernel.TriangleDrawCall(ax, ay, bx, bY, cx, cy, color)), db);
    }

    /** FillRectangle: order the corners by x and launch the fill kernel. */
    method FillRectangle(x0: int, y0: int, x1: int, y1: int, color: Color)
      requires Valid()
      modifies buffer`syncCpu, buffer`syncGpu, buffer.memory
      ensures Valid()
      ensures buffer.State() ==
        Apply(old(buffer.State()), buffer.width, RectangleFill(OrderedRectangle(x0, y0, x1, y1, color)))
    {
      var (ax, ay, bx, bY) := (x0, y0, x1, y1);
      if ax > bx {
        ax, bx := bx, ax;
        ay, bY := bY, ay;
      }
      var db := buffer.GetDeviceBuffer();
      PixelKernels.Run(RectangleFill(RectangleKernel.RectangleDrawCall(ax, ay, bx, bY, color)), db);
    }

    /** FillCircle: launch the fill kernel with the parameters as given. */
    method FillCircle(x: int, y: int, radius: int, color: Color)
      requires Valid()
      modifies buffer`syncCpu, buffer`syncGpu, buffer.memory
      ensures Valid()
      ensures buffer.State() ==
        Apply(old(buffer.State()), buffer.width, CircleFill(CircleKernel.CircleDrawCall(x, y, radius, color)))
    {
      var db := buffer.GetDeviceBuffer();
      PixelKernels.Run(CircleFill(CircleKernel.CircleDrawCall(x, y, radius, color)), db);
    }

    /** Dispose: only the first call has an effect. */
    method Dispose()
      modifies this`disposed, buffer`disposed
      ensures disposed && buffer.disposed == (old(buffer.disposed) || !old(disposed))
    {
      if disposed {
        return;
      }
      disposed := true;
      buffer.Dispose();
    }
  }
}
