/** RyCL/Graphics/RasterGL.cs: the batched rasteriser. Draw and fill calls
    are normalised and queued in seven lists; Draw() launches one batched
    kernel per non-empty list, in a fixed order of categories, and clears
    each list after its launch. */
module BatchedRaster {
  import opened Surface
  import LineKernel
  import TriangleKernel
  import RectangleKernel
  import CircleKernel
  import PixelKernel
  import opened Launch
  import opened Normalize

  function LineCalls(l: seq<LineKernel.LineDrawCall>): seq<Call>
  {
    seq(|l|, i requires 0 <= i < |l| => LineStroke(l[i]))
  }

  function TriangleCalls(l: seq<TriangleKernel.TriangleDrawCall>): seq<Call>
  {
    seq(|l|, i requires 0 <= i < |l| => TriangleStroke(l[i]))
  }

  function TriangleFillCalls(l: seq<TriangleKernel.TriangleDrawCall>): seq<Call>
  {
    seq(|l|, i requires 0 <= i < |l| => TriangleFill(l[i]))
  }

  function RectangleCalls(l: seq<RectangleKernel.RectangleDrawCall>): seq<Call>
  {
    seq(|l|, i requires 0 <= i < |l| => RectangleStroke(l[i]))
  }

  function RectangleFillCalls(l: seq<RectangleKernel.RectangleDrawCall>): seq<Call>
  {
    seq(|l|, i requires 0 <= i < |l| => RectangleFill(l[i]))
  }

  function CircleCalls(l: seq<CircleKernel.CircleDrawCall>): seq<Call>
  {
    seq(|l|, i requires 0 <= i < |l| => CircleStroke(l[i]))
  }

  function CircleFillCalls(l: seq<CircleKernel.CircleDrawCall>): seq<Call>
  {
    seq(|l|, i requires 0 <= i < |l| => CircleFill(l[i]))
  }

  /** The surface state after Fill(color): the device buffer is acquired and
      every device pixel set to the colour. */
  function AfterFill(s: SurfaceState, color: Color): SurfaceState
  {
    var a := Acquire(s);
    a.(device := PixelKernel.Filled(a.device, |a.device|, color))
  }

  /** After Fill(color) every pixel reads back as the colour. */
  lemma FillShowsColour(s: SurfaceState, color: Color)
    requires |s.host| == |s.device|
    ensures Logical(AfterFill(s, color)) == seq(|s.device|, _ => color)
    ensures AfterFill(s, color).host == s.host
  {
  }

  /** The effect of one flush helper: an empty list changes nothing; a
      non-empty one acquires the device buffer and launches its batch. */
  ghost predicate FlushStep(s0: SurfaceState, s1: SurfaceState, width: int, calls: seq<Call>)
  {
    if |calls| == 0 then s1 == s0
    else
      var a := Acquire(s0);
      s1.host == a.host && s1.syncCpu == a.syncCpu && s1.syncGpu == a.syncGpu &&
      BatchOutcome(a.device, s1.device, width, calls)
  }

  /** The effect of flushing the batches in order: nothing at all while every
      batch so far was empty; otherwise the host array is kept, the device is
      ahead, and each device pixel is decided by the last batch covering it. */
  ghost predicate DrawOutcome(s0: SurfaceState, s: SurfaceState, width: int, batches: seq<seq<Call>>)
  {
    if forall k :: 0 <= k < |batches| ==> batches[k] == [] then s == s0
    else
      s.host == s0.host && s.syncCpu && !s.syncGpu && |s.device| == |Acquire(s0).device| &&
      forall i {:trigger FlushOutcome(Acquire(s0).device[i], s.device[i], batches, width, i)} :: 0 <= i < |s.device| ==> FlushOutcome(Acquire(s0).device[i], s.device[i], batches, width, i)
  }

  /** One more flush helper extends the outcome of Draw by its batch. */
  lemma DrawStep(s0: SurfaceState, s: SurfaceState, s': SurfaceState, width: int, batches: seq<seq<Call>>, calls: seq<Call>)
    requires |s0.host| == |s0.device|
    requires DrawOutcome(s0, s, width, batches) && FlushStep(s, s', width, calls)
    ensures DrawOutcome(s0, s', width, batches + [calls])
  {
    var bs := batches + [calls];
    assert forall k :: 0 <= k < |batches| ==> bs[k] == batches[k];
    assert bs[|batches|] == calls;
    var allEmpty := forall k :: 0 <= k < |batches| ==> batches[k] == [];
    if calls == [] {
      if !allEmpty {
        forall i | 0 <= i < |s'.device|
          ensures FlushOutcome(Acquire(s0).device[i], s'.device[i], bs, width, i)
        {
          FlushSkipEmpty(Acquire(s0).device[i], s.device[i], batches, width, i);
        }
      }
    } else {
      assert !(forall k :: 0 <= k < |bs| ==> bs[k] == []);
      forall i | 0 <= i < |s'.device|
        ensures FlushOutcome(Acquire(s0).device[i], s'.device[i], bs, width, i)
      {
        var v0 := Acquire(s0).device[i];
        if allEmpty {
          FlushOfEmptyBatches(v0, v0, batches, width, i);
          FlushExtend(v0, v0, s'.device[i], batches, calls, width, i);
        } else {
          FlushExtend(v0, s.device[i], s'.device[i], batches, calls, width, i);
        }
      }
    }
  }

  /** Read back after Draw(): a pixel that no queued call covers keeps its
      colour, and a pixel whose last covering category is k shows the colour
      of a call of category k that covers it. */
  lemma DrawShowsLastCover(s0: SurfaceState, s: SurfaceState, width: int, batches: seq<seq<Call>>, i: int, k: int)
    requires Coherent(s0) && !Conflicted(s0) && 0 <= i < |s0.host|
    requires DrawOutcome(s0, s, width, batches)
    ensures (forall m :: 0 <= m < |batches| ==> !AnyHit(batches[m], width, i)) ==> Logical(s)[i] == Logical(s0)[i]
    ensures (0 <= k < |batches| && AnyHit(batches[k], width, i) &&
             forall m :: k < m < |batches| ==> !AnyHit(batches[m], width, i))
            ==> ColorFrom(Logical(s)[i], batches[k], width, i)
  {
    AcquireExposesLogical(s0);
    if !(forall m :: 0 <= m < |batches| ==> batches[m] == []) {
      var v0, v := Acquire(s0).device[i], s.device[i];
      assert FlushOutcome(v0, v, batches, width, i);
      if forall m :: 0 <= m < |batches| ==> !AnyHit(batches[m], width, i) {
        UncoveredPixelUnchanged(v0, v, batches, width, i);
      }
      if 0 <= k < |batches| && AnyHit(batches[k], width, i) && (forall m :: k < m < |batches| ==> !AnyHit(batches[m], width, i)) {
        LaterBatchWins(v0, v, batches, width, i, k);
      }
    }
  }

  /** Without the coherence hypothesis: once some batch was launched, a pixel
      that no queued call covers reads back as what the acquired device
      buffer held. */
  lemma DrawShowsAcquiredDevice(s0: SurfaceState, s: SurfaceState, width: int, batches: seq<seq<Call>>, i: int, k: int)
    requires |s0.host| == |s0.device| && 0 <= i < |s0.device|
    requires 0 <= k < |batches| && batches[k] != []
    requires DrawOutcome(s0, s, width, batches)
    requires forall m :: 0 <= m < |batches| ==> !AnyHit(batches[m], width, i)
    ensures Logical(s)[i] == Acquire(s0).device[i]
  {
    UncoveredPixelUnchanged(Acquire(s0).device[i], s.device[i], batches, width, i);
  }

  /** On a freshly constructed surface the first Draw that launches anything
      exposes device memory as it was allocated: a pixel that read back as
      zero before and that no queued call covers reads back as whatever
      device memory held. */
  lemma FreshDrawShowsDeviceMemory(device: seq<Color>, s: SurfaceState, width: int, batches: seq<seq<Call>>, i: int, k: int)
    requires 0 <= i < |device| && 0 <= k < |batches| && batches[k] != []
    requires DrawOutcome(Fresh(device), s, width, batches)
    requires forall m :: 0 <= m < |batches| ==> !AnyHit(batches[m], width, i)
    ensures Logical(Fresh(device))[i] == 0 && Logical(s)[i] == device[i]
  {
    FreshSurfaceIsIncoherent(device);
    DrawShowsAcquiredDevice(Fresh(device), s, width, batches, i, k);
  }

  /** Flushing the batches one after another yields DrawOutcome. */
  lemma {:induction false} DrawChain(s0: SurfaceState, ss: seq<SurfaceState>, width: int, batches: seq<seq<Call>>)
    requires |ss| == |batches| + 1 && ss[0] == s0 && |s0.host| == |s0.device|
    requires forall k :: 0 <= k < |batches| ==> FlushStep(ss[k], ss[k + 1], width, batches[k])
    ensures DrawOutcome(s0, ss[|batches|], width, batches)
    decreases |batches|
  {
    var n := |batches|;
    if n == 0 {
      assert ss[0] == s0;
    } else {
      var front := batches[..n - 1];
      assert forall k :: 0 <= k < |front| ==> front[k] == batches[k];
      DrawChain(s0, ss[..n], width, front);
      DrawStep(s0, ss[n - 1], ss[n], width, front, batches[n - 1]);
      assert front + [batches[n - 1]] == batches;
    }
  }

  /** DrawChain for the seven batches of Draw(). */
  lemma DrawChain7(s0: SurfaceState, s1: SurfaceState, s2: SurfaceState, s3: SurfaceState,
                   s4: SurfaceState, s5: SurfaceState, s6: SurfaceState, s7: SurfaceState, width: int,
                   b0: seq<Call>, b1: seq<Call>, b2: seq<Call>, b3: seq<Call>, b4: seq<Call>, b5: seq<Call>, b6: seq<Call>)
    requires |s0.host| == |s0.device|
    requires FlushStep(s0, s1, width, b0) && FlushStep(s1, s2, width, b1) && FlushStep(s2, s3, width, b2)
    requires FlushStep(s3, s4, width, b3) && FlushStep(s4, s5, width, b4) && FlushStep(s5, s6, width, b5)
    requires FlushStep(s6, s7, width, b6)
    ensures DrawOutcome(s0, s7, width, [b0, b1, b2, b3, b4, b5, b6])
  {
    var ss := [s0, s1, s2, s3, s4, s5, s6, s7];
    var batches := [b0, b1, b2, b3, b4, b5, b6];
    assert forall k :: 0 <= k < 7 ==> FlushStep(ss[k], ss[k + 1], width, batches[k]);
    DrawChain(s0, ss, width, batches);
  }

  class RasterGL {
    var disposed: bool
    const buffer: HostBuffer
    var lineDrawCalls: seq<LineKernel.LineDrawCall>
    var triangleDrawCalls: seq<TriangleKernel.TriangleDrawCall>
    var triangleFillCalls: seq<TriangleKernel.TriangleDrawCall>
    var rectangleDrawCalls: seq<RectangleKernel.RectangleDrawCall>
    var rectangleFillCalls: seq<RectangleKernel.RectangleDrawCall>
    var circleDrawCalls: seq<CircleKernel.CircleDrawCall>
    var circleFillCalls: seq<CircleKernel.CircleDrawCall>

    ghost predicate Valid()
    {
      buffer.Valid()
    }

    /** The batches Draw() launches, in its order of categories. */
    function Batches(): seq<seq<Call>>
      reads this
    {
      [LineCalls(lineDrawCalls), TriangleCalls(triangleDrawCalls), TriangleFillCalls(triangleFillCalls),
       RectangleCalls(rectangleDrawCalls), RectangleFillCalls(rectangleFillCalls),
       CircleCalls(circleDrawCalls), CircleFillCalls(circleFillCalls)]
    }

    predicate QueuesEmpty()
      reads this
    {
      lineDrawCalls == [] && triangleDrawCalls == [] && triangleFillCalls == [] &&
      rectangleDrawCalls == [] && rectangleFillCalls == [] &&
      circleDrawCalls == [] && circleFillCalls == []
    }

    /** A surface of width*height pixels and seven empty queues. The choice of
        accelerator (useCpu) has no effect on the model. */
    constructor (width: int, height: int, useCpu: bool)
      requires 0 <= width * height
      ensures Valid() && fresh(buffer) && fresh(buffer.host) && fresh(buffer.memory)
      ensures buffer.width == width && buffer.height == height && buffer.Count() == width * height
      ensures buffer.host[..] == seq(width * height, _ => 0)
      ensures !buffer.syncCpu && !buffer.syncGpu && !buffer.disposed
      ensures buffer.State() == Fresh(buffer.memory[..])
      ensures QueuesEmpty() && !disposed
    {
      disposed := false;
      buffer := new HostBuffer(width, height);
      lineDrawCalls := [];
      triangleDrawCalls := [];
      triangleFillCalls := [];
      rectangleDrawCalls := [];
      rectangleFillCalls := [];
      circleDrawCalls := [];
      circleFillCalls := [];
    }

    /** Fill(color): every device pixel is set, and reads see the colour. */
    method Fill(color: Color)
      requires Valid()
      modifies buffer`syncCpu, buffer`syncGpu, buffer.memory
      ensures Valid()
      ensures buffer.State() == AfterFill(old(buffer.State()), color)
    {
      var db := buffer.GetDeviceBuffer();
      PixelKernel.FillAll(buffer.Count(), color, db);
    }

    /** Copy(other): both buffers are acquired, then the first other.Count
        pixels of this device buffer become other's device pixels. */
    method Copy(other: HostBuffer)
      requires Valid() && other.Valid()
      requires other != buffer
      requires other.host != buffer.host && other.host != buffer.memory
      requires other.memory != buffer.host && other.memory != buffer.memory
      requires other.Count() <= buffer.Count()
      modifies other`syncCpu, other`syncGpu, other.memory, buffer`syncCpu, buffer`syncGpu, buffer.memory
      ensures Valid() && other.Valid()
      ensures other.State() == Acquire(old(other.State()))
      ensures buffer.State() == var a := Acquire(old(buffer.State()));
        a.(device := PixelKernel.Copied(a.device, other.State().device, other.Count()))
    {
      var input := other.GetDeviceBuffer();
      var output := buffer.GetDeviceBuffer();
      PixelKernel.CopyAll(other.Count(), input, output);
    }

    /** DrawLine: queue the line with its endpoints ordered by x. */
    method DrawLine(x0: int, y0: int, x1: int, y1: int, color: Color)
      modifies this`lineDrawCalls
      ensures lineDrawCalls == old(lineDrawCalls) + [OrderedLine(x0, y0, x1, y1, color)]
    {
      var (ax, ay, bx, bY) := (x0, y0, x1, y1);
      if ax > bx {
        ax, bx := bx, ax;
        ay, bY := bY, ay;
      }
      lineDrawCalls := lineDrawCalls + [LineKernel.LineDrawCall(ax, ay, bx, bY, color)];
    }

    /** DrawTriangle: drop a flat triangle, otherwise queue it sorted by y. */
    method DrawTriangle(x0: int, y0: int, x1: int, y1: int, x2: int, y2: int, color: Color)
      modifies this`triangleDrawCalls
      ensures Flat(y0, y1, y2) ==> triangleDrawCalls == old(triangleDrawCalls)
      ensures !Flat(y0, y1, y2) ==>
        triangleDrawCalls == old(triangleDrawCalls) + [SortedTriangle(x0, y0, x1, y1, x2, y2, color)]
    {
      if y0 == y1 && y0 == y2 {
        return;
      }
      var (ax, ay, bx, bY, cx, cy) := (x0, y0, x1, y1, x2, y2);
      if ay > bY {
        ax, bx := bx, ax;
        ay, bY := bY, ay;
      }
      if ay > cy {
        ax, cx := cx, ax;
        ay, cy := cy, ay;
      }
      if bY > cy {
        bx, cx := cx, bx;
        bY, cy := cy, bY;
      }
      triangleDrawCalls := triangleDrawCalls + [TriangleKernel.TriangleDrawCall(ax, ay, bx, bY, cx, cy, color)];
    }

    /** FillTriangle: drop a flat triangle, otherwise queue it sorted by y. */
    method FillTriangle(x0: int, y0: int, x1: int, y1: int, x2: int, y2: int, color: Color)
      modifies this`triangleFillCalls
      ensures Flat(y0, y1, y2) ==> triangleFillCalls == old(triangleFillCalls)
      ensures !Flat(y0, y1, y2) ==>
        triangleFillCalls == old(triangleFillCalls) + [SortedTriangle(x0, y0, x1, y1, x2, y2, color)]
    {
      if y0 == y1 && y0 == y2 {
        return;
      }
      var (ax, ay, bx, bY, cx, cy) := (x0, y0, x1, y1, x2, y2);
      if ay > bY {
        ax, bx := bx, ax;
        ay, bY := bY, ay;
      }
      if ay > cy {
        ax, cx := cx, ax;
        ay, cy := cy, ay;
      }
      if bY > cy {
        bx, cx := cx, bx;
        bY, cy := cy, bY;
      }
      triangleFillCalls := triangleFillCalls + [TriangleKernel.TriangleDrawCall(ax, ay, bx, bY, cx, cy, color)];
    }

    /** DrawRectangle: queue the rectangle with its corners ordered by x. */
    method DrawRectangle(x0: int, y0: int, x1: int, y1: int, color: Color)
      modifies this`rectangleDrawCalls
      ensures rectangleDrawCalls == old(rectangleDrawCalls) + [OrderedRectangle(x0, y0, x1, y1, color)]
    {
      var (ax, ay, bx, bY) := (x0, y0, x1, y1);
      if ax > bx {
        ax, bx := bx, ax;
        ay, bY := bY, ay;
      }
      rectangleDrawCalls := rectangleDrawCalls + [RectangleKernel.RectangleDrawCall(ax, ay, bx, bY, color)];
    }

    /** FillRectangle: queue the rectangle with its corners ordered by x. */
    method FillRectangle(x0: int, y0: int, x1: int, y1: int, color: Color)
      modifies this`rectangleFillCalls
      ensures rectangleFillCalls == old(rectangleFillCalls) + [OrderedRectangle(x0, y0, x1, y1, color)]
    {
      var (ax, ay, bx, bY) := (x0, y0, x1, y1);
      if ax > bx {
        ax, bx := bx, ax;
        ay, bY := bY, ay;
      }
      rectangleFillCalls := rectangleFillCalls + [RectangleKernel.RectangleDrawCall(ax, ay, bx, bY, color)];
    }

    /** DrawCircle: queue the parameters as given. */
    method DrawCircle(x: int, y: int, radius: int, color: Color)
      modifies this`circleDrawCalls
      ensures circleDrawCalls == old(circleDrawCalls) + [CircleKernel.CircleDrawCall(x, y, radius, color)]
    {
      circleDrawCalls := circleDrawCalls + [CircleKernel.CircleDrawCall(x, y, radius, color)];
    }

    /** FillCircle: queue the parameters as given. */
    method FillCircle(x: int, y: int, radius: int, color: Color)
      modifies this`circleFillCalls
      ensures circleFillCalls == old(circleFillCalls) + [CircleKernel.CircleDrawCall(x, y, radius, color)]
    {
      circleFillCalls := circleFillCalls + [CircleKernel.CircleDrawCall(x, y, radius, color)];
    }

    /** Draw(): the seven flushes in order. */
    method Draw()
      requires Valid()
      modifies this`lineDrawCalls, this`triangleDrawCalls, this`triangleFillCalls,
        this`rectangleDrawCalls, this`rectangleFillCalls, this`circleDrawCalls, this`circleFillCalls,
        buffer`syncCpu, buffer`syncGpu, buffer.memory
      ensures Valid() && QueuesEmpty()
      ensures DrawOutcome(old(buffer.State()), buffer.State(), buffer.width, old(Batches()))
    {
      ghost var batches := Batches();
      ghost var s0 := buffer.State();
      ghost var b0 := LineCalls(lineDrawCalls);
      DrawLines();
      ghost var s1 := buffer.State();
      ghost var b1 := TriangleCalls(triangleDrawCalls);
      DrawTriangles();
      ghost var s2 := buffer.State();
      ghost var b2 := TriangleFillCalls(triangleFillCalls);
      FillTriangles();
      ghost var s3 := buffer.State();
      ghost var b3 := RectangleCalls(rectangleDrawCalls);
      DrawRectangles();
      ghost var s4 := buffer.State();
      ghost var b4 := RectangleFillCalls(rectangleFillCalls);
      FillRectangles();
      ghost var s5 := buffer.State();
      ghost var b5 := CircleCalls(circleDrawCalls);
      DrawCircles();
      ghost var s6 := buffer.State();
      ghost var b6 := CircleFillCalls(circleFillCalls);
      FillCircles();
      ghost var s7 := buffer.State();
      assert batches == [b0, b1, b2, b3, b4, b5, b6];
      DrawChain7(s0, s1, s2, s3, s4, s5, s6, s7, buffer.width, b0, b1, b2, b3, b4, b5, b6);
    }

    /** Dispose: only the first call has an effect. */
    method Dispose()
      modifies this`disposed, buffer`disposed
      ensures disposed && buffer.disposed == (old(buffer.disposed) || !old(disposed))
    {
      if disposed {
        return;
      }
      disposed := true;
      buffer.Dispose();
    }

    /** DrawLines: launch the queued lines over Index2D(Count, lines) and
        clear the queue; nothing happens when it is empty. */
    method DrawLines()
      requires Valid()
      modifies this`lineDrawCalls, buffer`syncCpu, buffer`syncGpu, buffer.memory
      ensures Valid() && lineDrawCalls == []
      ensures FlushStep(old(buffer.State()), buffer.State(), buffer.width, LineCalls(old(lineDrawCalls)))
    {
      if |lineDrawCalls| == 0 {
        return;
      }
      var db := buffer.GetDeviceBuffer();
      RunBatch(LineCalls(lineDrawCalls), db);
      lineDrawCalls := [];
    }

    method DrawTriangles()
      requires Valid()
      modifies this`triangleDrawCalls, buffer`syncCpu, buffer`syncGpu, buffer.memory
      ensures Valid() && triangleDrawCalls == []
      ensures FlushStep(old(buffer.State()), buffer.State(), buffer.width, TriangleCalls(old(triangleDrawCalls)))
    {
      var count := |triangleDrawCalls|;
      if count == 0 {
        return;
      }
      var db := buffer.GetDeviceBuffer();
      RunBatch(TriangleCalls(triangleDrawCalls), db);
      triangleDrawCalls := [];
    }

    method FillTriangles()
      requires Valid()
      modifies this`triangleFillCalls, buffer`syncCpu, buffer`syncGpu, buffer.memory
      ensures Valid() && triangleFillCalls == []
      ensures FlushStep(old(buffer.State()), buffer.State(), buffer.width, TriangleFillCalls(old(triangleFillCalls)))
    {
      var count := |triangleFillCalls|;
      if count == 0 {
        return;
      }
      var db := buffer.GetDeviceBuffer();
      RunBatch(TriangleFillCalls(triangleFillCalls), db);
      triangleFillCalls := [];
    }

    method DrawRectangles()
      requires Valid()
      modifies this`rectangleDrawCalls, buffer`syncCpu, buffer`syncGpu, buffer.memory
      ensures Valid() && rectangleDrawCalls == []
      ensures FlushStep(old(buffer.State()), buffer.State(), buffer.width, RectangleCalls(old(rectangleDrawCalls)))
    {
      var count := |rectangleDrawCalls|;
      if count == 0 {
        return;
      }
      var db := buffer.GetDeviceBuffer();
      RunBatch(RectangleCalls(rectangleDrawCalls), db);
      rectangleDrawCalls := [];
    }

    method FillRectangles()
      requires Valid()
      modifies this`rectangleFillCalls, buffer`syncCpu, buffer`syncGpu, buffer.memory
      ensures Valid() && rectangleFillCalls == []
      ensures FlushStep(old(buffer.State()), buffer.State(), buffer.width, RectangleFillCalls(old(rectangleFillCalls)))
    {
      var count := |rectangleFillCalls|;
      if count == 0 {
        return;
      }
      var db := buffer.GetDeviceBuffer();
      RunBatch(RectangleFillCalls(rectangleFillCalls), db);
      rectangleFillCalls := [];
    }

    method DrawCircles()
      requires Valid()
      modifies this`circleDrawCalls, buffer`syncCpu, buffer`syncGpu, buffer.memory
      ensures Valid() && circleDrawCalls == []
      ensures FlushStep(old(buffer.State()), buffer.State(), buffer.width, CircleCalls(old(circleDrawCalls)))
    {
      var count := |circleDrawCalls|;
      if count == 0 {
        return;
      }
      var db := buffer.GetDeviceBuffer();
      RunBatch(CircleCalls(circleDrawCalls), db);
      circleDrawCalls := [];
    }

    method FillCircles()
      requires Valid()
      modifies this`circleFillCalls, buffer`syncCpu, buffer`syncGpu, buffer.memory
      ensures Valid() && circleFillCalls == []
      ensures FlushStep(old(buffer.State()), buffer.State(), buffer.width, CircleFillCalls(old(circleFillCalls)))
    {
      var count := |circleFillCalls|;
      if count == 0 {
        return;
      }
      var db := buffer.GetDeviceBuffer();
      RunBatch(CircleFillCalls(circleFillCalls), db);
      circleFillCalls := [];
    }
  }
}
