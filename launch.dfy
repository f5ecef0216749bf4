/** A batched kernel launch over Index2D(Count, calls): every (pixel, call)
    pair runs one thread, and the threads of one launch run in no fixed
    order. The model states what every order guarantees: each pixel ends
    with the colour of some call of the batch that covers it, or unchanged
    when no call covers it. The sequential loop RunBatch is one such order. */
module Launch {
  import opened Surface
  import LineKernel
  import TriangleKernel
  import RectangleKernel
  import CircleKernel

  /** One draw call of any of the seven categories. */
  datatype Call =
    | LineStroke(line: LineKernel.LineDrawCall)
    | TriangleStroke(triangle: TriangleKernel.TriangleDrawCall)
    | TriangleFill(triangle: TriangleKernel.TriangleDrawCall)
    | RectangleStroke(rectangle: RectangleKernel.RectangleDrawCall)
    | RectangleFill(rectangle: RectangleKernel.RectangleDrawCall)
    | CircleStroke(circle: CircleKernel.CircleDrawCall)
    | CircleFill(circle: CircleKernel.CircleDrawCall)

  /** The kernel's decision for pixel (px, py). */
  predicate Covers(c: Call, px: int, py: int)
  {
    match c
    case LineStroke(l) => LineKernel.CallCovers(l, px, py)
    case TriangleStroke(t) => TriangleKernel.StrokeCovers(t, px, py)
    case TriangleFill(t) => TriangleKernel.FillCovers(t, px, py)
    case RectangleStroke(r) => RectangleKernel.StrokeCovers(r, px, py)
    case RectangleFill(r) => RectangleKernel.FillCovers(r, px, py)
    case CircleStroke(k) => CircleKernel.StrokeCovers(k, px, py)
    case CircleFill(k) => CircleKernel.FillCovers(k, px, py)
  }

  function ColorOf(c: Call): Color
  {
    match c
    case LineStroke(l) => l.Color
    case TriangleStroke(t) => t.Color
    case TriangleFill(t) => t.Color
    case RectangleStroke(r) => r.Color
    case RectangleFill(r) => r.Color
    case CircleStroke(k) => k.Color
    case CircleFill(k) => k.Color
  }

  /** The call covers linear pixel i of a surface `width` pixels wide. */
  predicate Hit(c: Call, width: int, i: int)
  {
    width != 0 && Covers(c, Coordinates(width, i).0, Coordinates(width, i).1)
  }

  /** The surface after one call has been applied to every pixel. */
  function Paint(s: seq<Color>, width: int, c: Call): (r: seq<Color>)
    ensures |r| == |s|
    ensures forall i :: 0 <= i < |s| ==> r[i] == (if Hit(c, width, i) then ColorOf(c) else s[i])
  {
    seq(|s|, i requires 0 <= i < |s| => if Hit(c, width, i) then ColorOf(c) else s[i])
  }

  /** Some call of the batch covers pixel i. */
  ghost predicate AnyHit(calls: seq<Call>, width: int, i: int)
  {
    exists j :: 0 <= j < |calls| && Hit(calls[j], width, i)
  }

  /** v is the colour of some call of the batch that covers pixel i. */
  ghost predicate ColorFrom(v: Color, calls: seq<Call>, width: int, i: int)
  {
    exists j :: 0 <= j < |calls| && Hit(calls[j], width, i) && v == ColorOf(calls[j])
  }

  /** What a launch of the batch may leave in pixel i, which held v0. */
  ghost predicate PixelOutcome(v0: Color, v: Color, calls: seq<Call>, width: int, i: int)
  {
    if AnyHit(calls, width, i) then ColorFrom(v, calls, width, i) else v == v0
  }

  /** What a launch of the batch may leave in the whole surface. */
  ghost predicate BatchOutcome(before: seq<Color>, after: seq<Color>, width: int, calls: seq<Call>)
  {
    |after| == |before| &&
    forall i {:trigger PixelOutcome(before[i], after[i], calls, width, i)} :: 0 <= i < |before| ==> PixelOutcome(before[i], after[i], calls, width, i)
  }

  /** What a sequence of launches, one per batch, may leave in pixel i: the
      last batch that covers the pixel decides it. */
  ghost predicate FlushOutcome(v0: Color, v: Color, batches: seq<seq<Call>>, width: int, i: int)
    decreases |batches|
  {
    if |batches| == 0 then v == v0
    else
      var last := batches[|batches| - 1];
      if AnyHit(last, width, i) then ColorFrom(v, last, width, i)
      else FlushOutcome(v0, v, batches[..|batches| - 1], width, i)
  }

  /** Adding one call to the batch: painting with it keeps the outcome. */
  lemma OutcomeExtend(v0: Color, v: Color, calls: seq<Call>, c: Call, width: int, i: int)
    requires PixelOutcome(v0, v, calls, width, i)
    ensures PixelOutcome(v0, if Hit(c, width, i) then ColorOf(c) else v, calls + [c], width, i)
  {
    var calls' := calls + [c];
    if Hit(c, width, i) {
      assert calls'[|calls|] == c;
    } else if AnyHit(calls, width, i) {
      var j :| 0 <= j < |calls| && Hit(calls[j], width, i) && v == ColorOf(calls[j]);
      assert calls'[j] == calls[j];
    } else {
      forall j | 0 <= j < |calls'|
        ensures !Hit(calls'[j], width, i)
      {
        if j < |calls| {
          assert calls'[j] == calls[j];
        }
      }
    }
  }

  /** A batch of one call has exactly one outcome, the call painted alone:
      the batched and the immediate launch agree. */
  lemma SingletonBatchIsPaint(before: seq<Color>, after: seq<Color>, width: int, c: Call)
    ensures BatchOutcome(before, after, width, [c]) <==> after == Paint(before, width, c)
  {
    if BatchOutcome(before, after, width, [c]) {
      forall i | 0 <= i < |before|
        ensures after[i] == Paint(before, width, c)[i]
      {
        assert PixelOutcome(before[i], after[i], [c], width, i);
        if Hit(c, width, i) {
          assert AnyHit([c], width, i) by { assert [c][0] == c; }
        }
      }
    }
    if after == Paint(before, width, c) {
      forall i | 0 <= i < |before|
        ensures PixelOutcome(before[i], after[i], [c], width, i)
      {
        if Hit(c, width, i) {
          assert [c][0] == c;
        }
      }
    }
  }

  /** When at most one call of a batch covers each pixel, the outcome is
      determined. */
  lemma DisjointBatchIsDeterministic(before: seq<Color>, a: seq<Color>, b: seq<Color>, width: int, calls: seq<Call>)
    requires forall i, j, k :: 0 <= i < |before| && 0 <= j < k < |calls| ==> !(Hit(calls[j], width, i) && Hit(calls[k], width, i))
    requires BatchOutcome(before, a, width, calls) && BatchOutcome(before, b, width, calls)
    ensures a == b
  {
    forall i | 0 <= i < |before|
      ensures a[i] == b[i]
    {
      assert PixelOutcome(before[i], a[i], calls, width, i);
      assert PixelOutcome(before[i], b[i], calls, width, i);
      if AnyHit(calls, width, i) {
        var j :| 0 <= j < |calls| && Hit(calls[j], width, i) && a[i] == ColorOf(calls[j]);
        var k :| 0 <= k < |calls| && Hit(calls[k], width, i) && b[i] == ColorOf(calls[k]);
        assert j == k;
      }
    }
  }

  /** Launching one more batch extends the flush outcome. */
  lemma FlushExtend(v0: Color, v1: Color, v2: Color, batches: seq<seq<Call>>, calls: seq<Call>, width: int, i: int)
    requires FlushOutcome(v0, v1, batches, width, i)
    requires PixelOutcome(v1, v2, calls, width, i)
    ensures FlushOutcome(v0, v2, batches + [calls], width, i)
  {
    var bs := batches + [calls];
    assert bs[|bs| - 1] == calls;
    assert bs[..|bs| - 1] == batches;
  }

  /** Skipping the launch of an empty batch keeps the flush outcome. */
  lemma FlushSkipEmpty(v0: Color, v: Color, batches: seq<seq<Call>>, width: int, i: int)
    requires FlushOutcome(v0, v, batches, width, i)
    ensures FlushOutcome(v0, v, batches + [[]], width, i)
  {
    FlushExtend(v0, v, v, batches, [], width, i);
  }

  /** Flushing only empty batches changes nothing. */
  lemma {:induction false} FlushOfEmptyBatches(v0: Color, v: Color, batches: seq<seq<Call>>, width: int, i: int)
    requires forall k :: 0 <= k < |batches| ==> batches[k] == []
    ensures FlushOutcome(v0, v, batches, width, i) <==> v == v0
    decreases |batches|
  {
    if |batches| > 0 {
      var last := batches[|batches| - 1];
      assert last == [];
      assert !AnyHit(last, width, i);
      FlushOfEmptyBatches(v0, v, batches[..|batches| - 1], width, i);
    }
  }

  /** A pixel that no batch covers keeps its colour. */
  lemma {:induction false} UncoveredPixelUnchanged(v0: Color, v: Color, batches: seq<seq<Call>>, width: int, i: int)
    requires forall k :: 0 <= k < |batches| ==> !AnyHit(batches[k], width, i)
    requires FlushOutcome(v0, v, batches, width, i)
    ensures v == v0
    decreases |batches|
  {
    if |batches| > 0 {
      assert !AnyHit(batches[|batches| - 1], width, i);
      UncoveredPixelUnchanged(v0, v, batches[..|batches| - 1], width, i);
    }
  }

  /** A pixel covered by batch k and by no later batch ends with the colour
      of a call of batch k that covers it: later categories win. */
  lemma {:induction false} LaterBatchWins(v0: Color, v: Color, batches: seq<seq<Call>>, width: int, i: int, k: int)
    requires 0 <= k < |batches| && AnyHit(batches[k], width, i)
    requires forall m :: k < m < |batches| ==> !AnyHit(batches[m], width, i)
    requires FlushOutcome(v0, v, batches, width, i)
    ensures ColorFrom(v, batches[k], width, i)
    decreases |batches|
  {
    if k < |batches| - 1 {
      assert !AnyHit(batches[|batches| - 1], width, i);
      var init := batches[..|batches| - 1];
      assert init[k] == batches[k];
      forall m | k < m < |init|
        ensures !AnyHit(init[m], width, i)
      {
        assert init[m] == batches[m];
      }
      LaterBatchWins(v0, v, init, width, i, k);
    }
  }

  /** One (pixel, call) thread, dispatched to the kernel of the call's
      category. */
  method Thread(c: Call, index: int, output: DeviceBuffer)
    requires output.Valid() && 0 <= index < output.buffer.Length
    modifies output.buffer
    ensures output.buffer[..] == old(output.buffer[..])[index :=
      if Hit(c, output.width, index) then ColorOf(c) else old(output.buffer[index])]
  {
    match c
    case LineStroke(l) => LineKernel.DrawLine(index, l, output);
    case TriangleStroke(t) => TriangleKernel.DrawTriangle(index, t, output);
    case TriangleFill(t) => TriangleKernel.FillTriangle(index, t, output);
    case RectangleStroke(r) => RectangleKernel.DrawRectangle(index, r, output);
    case RectangleFill(r) => RectangleKernel.FillRectangle(index, r, output);
    case CircleStroke(k) => CircleKernel.DrawCircle(index, k, output);
    case CircleFill(k) => CircleKernel.FillCircle(index, k, output);
  }

  /** Every thread of Index2D(Count, |calls|), in one of the orders a launch
      may take: call by call, pixel by pixel. */
  method RunBatch(calls: seq<Call>, output: DeviceBuffer)
    requires output.Valid()
    modifies output.buffer
    ensures BatchOutcome(old(output.buffer[..]), output.buffer[..], output.width, calls)
  {
    var j := 0;
    while j < |calls|
      invariant 0 <= j <= |calls|
      invariant BatchOutcome(old(output.buffer[..]), output.buffer[..], output.width, calls[..j])
    {
      ghost var before := output.buffer[..];
      var i := 0;
      while i < output.buffer.Length
        invariant 0 <= i <= output.buffer.Length
        invariant forall k :: 0 <= k < i ==> output.buffer[k] == Paint(before, output.width, calls[j])[k]
        invariant forall k :: i <= k < output.buffer.Length ==> output.buffer[k] == before[k]
      {
        Thread(calls[j], i, output);
        i := i + 1;
      }
      forall k | 0 <= k < output.buffer.Length
        ensures PixelOutcome(old(output.buffer[k]), output.buffer[k], calls[..j + 1], output.width, k)
      {
        OutcomeExtend(old(output.buffer[k]), before[k], calls[..j], calls[j], output.width, k);
        assert calls[..j] + [calls[j]] == calls[..j + 1];
      }
      j := j + 1;
    }
    assert calls[..j] == calls;
  }
}
