# RyCL rasteriser core in Dafny

RyCL is a small 2D rasteriser that runs its per-pixel kernels on a GPU through
ILGPU. This project models the sequential logic that is left once the GPU
plumbing is set aside:

- **The dual-resident pixel surface** (`HostBuffer`, `DeviceBuffer`). A host
  array and a device copy are kept in step by two staleness flags: `syncCpu`
  ("the device is ahead") and `syncGpu` ("the host is ahead"). The protocol is
  written as pure transitions on a `SurfaceState` value (`Pull`, `Write`,
  `Acquire`). The class `HostBuffer` holds the two arrays and the flags, and
  each of its methods is proved to perform exactly one of those transitions.
  `DeviceBuffer.Index` and its inverse are modelled with C#'s truncating
  division and are proved to round-trip.
- **The per-pixel kernels** (line, triangle, rectangle, circle, fill and copy).
  - Each kernel's membership test is a predicate, and lemmas state its
    geometry: stroke inside fill, symmetry, bounding boxes, edge functions.
  - The integer tests are exact. The floating-point tests (line distance,
    circle ring) are modelled over the reals with squared comparisons. Lemmas
    show these agree with the kernels' `sqrt` comparisons for the true square
    root.
  - Each kernel thread is a method that writes its own pixel and no other. A
    launch over every pixel is a loop.
- **The batched rasteriser** (`RasterGL`). Draw and fill calls are normalised
  and queued in seven lists. `Draw()` flushes the lists in a fixed order,
  skips empty ones and clears each one after its launch.
  - One 2D launch (pixels × calls) is specified as a relation: each pixel ends
    with the colour of some covering call of the batch, or keeps its colour.
    The winner among overlapping calls of one batch is left open, because the
    threads run in parallel.
  - Across batches, the last category covering a pixel decides its colour.
- **The immediate rasteriser** (`PixelGL` with `PixelKernels`). It uses the
  same normalisation and the same predicates, but launches each call at once.
  A lemma shows that an immediate call and a one-call batch of the batched
  rasteriser have the same effect.

Colours are `bv32` (the bits of the C# `int`, `0xAARRGGBB`). Coordinates and
radii are unbounded integers.

Modules:

| module | file |
|---|---|
| `Surface` | `surface.dfy` |
| `Reals` (ordered-field helper lemmas) | `reals.dfy` |
| `LineKernel`, `TriangleKernel`, `RectangleKernel`, `CircleKernel`, `PixelKernel` | `*_kernel.dfy` |
| `Launch` (the call dispatcher and launch semantics) | `launch.dfy` |
| `Normalize` (the endpoint swap and the y-sort) | `normalize.dfy` |
| `PixelKernels` | `pixel_kernels.dfy` |
| `BatchedRaster` (`RasterGL`) | `raster_gl.dfy` |
| `ImmediateRaster` (`PixelGL`) | `pixel_gl.dfy` |

## Model

| member | source | states |
|---|---|---|
| Surface.Coordinates | RyCL/HostBuffer.cs:104-107 | the linear index to (x, y) conversion with C# `%` and `/`; its own ensures (going back with `y*width + x` gives the index) holds by the definition of C# `%`, and the round trip's content is in `CoordinatesOfIndex` and `CoordinatesInSurface` |
| Surface.CoordinatesOfIndex | RyCL/HostBuffer.cs:104-107 | the other direction: a pixel with 0 <= x < width and y >= 0 comes back unchanged from its linear index |
| Surface.CoordinatesInSurface | RyCL/HostBuffer.cs:104-107 | every index of a width-by-height surface names a pixel inside the surface |
| Surface.DeviceBuffer.GetPixel | RyCL/HostBuffer.cs:109-112 | returns the device pixel at the index |
| Surface.DeviceBuffer.SetPixel | RyCL/HostBuffer.cs:113-116 | changes exactly the one device slot |
| Surface.DeviceBuffer.GetPixelAt | RyCL/HostBuffer.cs:118-121 | reads the slot `y*width + x` |
| Surface.DeviceBuffer.SetPixelAt | RyCL/HostBuffer.cs:122-125 | writes exactly the slot `y*width + x` and no other |
| Surface.PullPreservesCoherence | RyCL/HostBuffer.cs:28-36 | a pull keeps the copies consistent, clears syncCpu, leaves the host holding what a reader should see, and does not touch the device |
| Surface.WritePreservesCoherence | RyCL/HostBuffer.cs:37-41 | a host write keeps the two copies consistent |
| Surface.AcquirePreservesCoherence | RyCL/HostBuffer.cs:63-72 | acquiring the device buffer keeps the copies consistent, always sets syncCpu, clears syncGpu and never changes the host array |
| Surface.AcquireExposesLogical | RyCL/HostBuffer.cs:63-72 | without a conflicting pending host write, the device holds after acquiring exactly what a reader would have seen before |
| Surface.WriteVisibility | RyCL/HostBuffer.cs:28-41 | a write is read back when the device is not ahead; when the device is ahead, the next read pulls the device copy over the written host array |
| Surface.HostWriteDiscardsDevicePixels | RyCL/HostBuffer.cs:37-69 | the hazard: with the device ahead, a host write followed by an acquire makes the device the old host array with one slot changed, so a pixel present only on the device is lost |
| Surface.PullBeforeWriteKeepsDevicePixels | RyCL/HostBuffer.cs:28-69 | reading before writing avoids the hazard: the device then ends up with the visible pixels plus the written one |
| Surface.AcquireIsIdempotent | RyCL/HostBuffer.cs:63-72 | acquiring twice is acquiring once |
| Surface.PullIsIdempotent | RyCL/HostBuffer.cs:28-36 | pulling twice is pulling once |
| Surface.FreshSurfaceIsIncoherent | RyCL/HostBuffer.cs:49-61 | a freshly constructed surface reads back as zeros, is coherent exactly when device memory happens to be zero, and its first acquire hands the kernels device memory as allocated, since the constructor sets no flag that would push the host array |
| Surface.HostBuffer.constructor | RyCL/HostBuffer.cs:49-61 | Count is width*height, the host array is zeroed, device memory has unspecified contents, both flags and the disposed flag are clear: the state `Fresh(memory)` |
| Surface.HostBuffer.Get | RyCL/HostBuffer.cs:28-36 | when the device is ahead, pulls it into the host and clears syncCpu; otherwise nothing changes; returns the host pixel |
| Surface.HostBuffer.Set | RyCL/HostBuffer.cs:37-41 | changes only host[i], sets syncGpu, and leaves the device and syncCpu alone |
| Surface.HostBuffer.GetAt | RyCL/HostBuffer.cs:43-47 | the 2D getter reads linear index `y*width + x` |
| Surface.HostBuffer.SetAt | RyCL/HostBuffer.cs:43-47 | the 2D setter writes linear index `y*width + x` |
| Surface.HostBuffer.GetDeviceBuffer | RyCL/HostBuffer.cs:63-72 | pushes the host into the device if the host is ahead, clears syncGpu, always sets syncCpu, never changes the host, and returns the descriptor of the device memory |
| Surface.HostBuffer.GetHostBufferRaw | RyCL/HostBuffer.cs:73-81 | the same pull as the getter, then returns the host array itself |
| Surface.HostBuffer.Dispose | RyCL/HostBuffer.cs:83-89 | afterwards the buffer is disposed; a second call changes nothing |
| LineKernel.DistanceThreshold | RyCL/Graphics/Kernels/LineKernel.cs:28-33 | for the true square root of m²+1, the kernel's test distance < 0.5 is exactly 4e² < m²+1 |
| LineKernel.NearLineExact | RyCL/Graphics/Kernels/LineKernel.cs:28-33 | the real-valued distance test with the computed m and b is equivalent to the integer test 4·cross² < length² for a non-vertical segment, and fails for a vertical one |
| LineKernel.CoveredInBounds | RyCL/Graphics/Kernels/LineKernel.cs:20-26 | a covered pixel lies in the segment's inclusive bounding box |
| LineKernel.InBoundsSymmetric | RyCL/Graphics/Kernels/LineKernel.cs:20-23 | the bounding-box rejection does not depend on endpoint order |
| LineKernel.CoversSymmetric | RyCL/Graphics/Kernels/LineKernel.cs:20-33 | the whole line test does not depend on endpoint order |
| LineKernel.EndpointsCovered | RyCL/Graphics/Kernels/LineKernel.cs:28-33 | both endpoints of a non-vertical segment are drawn |
| LineKernel.VerticalCoversNothing | RyCL/Graphics/Kernels/LineKernel.cs:28-32 | a segment with X0 == X1 draws no pixel: the slope is infinite or NaN and the distance comparison is false |
| LineKernel.HorizontalSpan | RyCL/Graphics/Kernels/LineKernel.cs:20-33 | a horizontal segment draws exactly its row between the endpoints |
| LineKernel.DrawLine | RyCL/Graphics/Kernels/LineKernel.cs:17-34 | one thread writes the call's colour to its own pixel iff the line test holds there, and changes nothing else |
| LineKernel.DrawLines | RyCL/Graphics/Kernels/LineKernel.cs:35-52 | the batched thread decides pixel index.X exactly as the single-call thread does for drawCalls[index.Y], and changes no other pixel |
| TriangleKernel.EdgeFunctionsVanish | RyCL/Graphics/Kernels/TriangleKernel.cs:39-41 | w0 is zero at v1 and v2, w1 at v2 and v0, w2 at v0 and v1 |
| TriangleKernel.EdgeSum | RyCL/Graphics/Kernels/TriangleKernel.cs:39-41 | the three edge functions add up to twice the signed area at every pixel |
| TriangleKernel.NegativeAreaFillsNothing | RyCL/Graphics/Kernels/TriangleKernel.cs:38-43 | a triangle whose edge functions give a negative area fills no pixel |
| TriangleKernel.VerticesFilled | RyCL/Graphics/Kernels/TriangleKernel.cs:38-43 | with non-negative area all three vertices are filled |
| TriangleKernel.DegenerateFillIsLine | RyCL/Graphics/Kernels/TriangleKernel.cs:38-43 | with zero area a pixel is filled iff all three edge functions vanish there |
| TriangleKernel.CollinearFillReachesBeyond | RyCL/Graphics/Kernels/TriangleKernel.cs:36-43 | for every collinear triangle and every integer t, the pixel v0 + t*(v1 - v0) is filled: the fill covers the whole infinite line, far beyond the vertices |
| TriangleKernel.WindingDecidesFill | RyCL/Graphics/Kernels/TriangleKernel.cs:36-43 | for every triangle that is not collinear, exactly one of it and its mirror image (same rows, opposite winding) fills its vertices, and the other fills no pixel |
| TriangleKernel.StrokeInSomeEdgeBox | RyCL/Graphics/Kernels/TriangleKernel.cs:58-64 | a stroked pixel lies in the bounding box of at least one edge |
| TriangleKernel.StrokeDrawsVertices | RyCL/Graphics/Kernels/TriangleKernel.cs:23-28 | when the edges adjacent to each vertex are not all vertical, the stroke draws all three vertices |
| TriangleKernel.DrawEdge | RyCL/Graphics/Kernels/TriangleKernel.cs:55-72 | the private line test writes the colour iff the pixel passes, like the line kernel |
| TriangleKernel.DrawTriangle | RyCL/Graphics/Kernels/TriangleKernel.cs:23-28 | the stroke writes the colour iff one of the three edge tests over (v0,v1), (v1,v2), (v2,v0) passes |
| TriangleKernel.DrawTriangles | RyCL/Graphics/Kernels/TriangleKernel.cs:29-34 | the batched stroke decides the pixel exactly as the single stroke does for drawCalls[index.Y] |
| TriangleKernel.FillTriangle | RyCL/Graphics/Kernels/TriangleKernel.cs:36-44 | the fill writes the colour iff w0, w1 and w2, as written, are all non-negative |
| TriangleKernel.FillTriangles | RyCL/Graphics/Kernels/TriangleKernel.cs:45-53 | the batched fill decides the pixel exactly as the single fill does for drawCalls[index.Y] |
| RectangleKernel.StrokeIsFillMinusInterior | RyCL/Graphics/Kernels/RectangleKernel.cs:27-56 | the stroke is exactly the fill minus the strict interior |
| RectangleKernel.StrokeWithinFill | RyCL/Graphics/Kernels/RectangleKernel.cs:31-55 | a stroked pixel is filled by the same corners and lies in the inclusive box |
| RectangleKernel.StrokeSkipsInterior | RyCL/Graphics/Kernels/RectangleKernel.cs:31-33 | the stroke never writes a strictly interior pixel |
| RectangleKernel.CornersStroked | RyCL/Graphics/Kernels/RectangleKernel.cs:27-33 | all four corners are stroked |
| RectangleKernel.CornerOrderIrrelevant | RyCL/Graphics/Kernels/RectangleKernel.cs:27-53 | stroke and fill do not change when both corners are swapped, or only their x values, or only their y values |
| RectangleKernel.DrawRectangle | RyCL/Graphics/Kernels/RectangleKernel.cs:24-34 | writes the colour iff the pixel is on the border and in the box; otherwise the pixel is unchanged |
| RectangleKernel.DrawRectangles | RyCL/Graphics/Kernels/RectangleKernel.cs:35-45 | the batched stroke matches the single stroke on drawCalls[index.Y] |
| RectangleKernel.FillRectangle | RyCL/Graphics/Kernels/RectangleKernel.cs:47-57 | writes the colour exactly on the pixels of the inclusive box |
| RectangleKernel.FillRectangles | RyCL/Graphics/Kernels/RectangleKernel.cs:58-68 | the batched fill matches the single fill on drawCalls[index.Y] |
| CircleKernel.SquaredDistanceNonneg | RyCL/Graphics/Kernels/CircleKernel.cs:27 | the squared distance under the square root is never negative |
| CircleKernel.FillTestMatchesDistance | RyCL/Graphics/Kernels/CircleKernel.cs:42-45 | for the true distance d, the integer test n <= r² with r >= 0 is exactly d <= r |
| CircleKernel.InsideMatchesDistance | RyCL/Graphics/Kernels/CircleKernel.cs:27-28 | the stroke's first rejection (distance < radius) is exactly its squared form |
| CircleKernel.BeyondMatchesDistance | RyCL/Graphics/Kernels/CircleKernel.cs:27-28 | the stroke's second rejection (distance > radius + 0.98) is exactly its squared form |
| CircleKernel.StrokeTestMatchesDistance | RyCL/Graphics/Kernels/CircleKernel.cs:27-29 | the stroke writes iff radius <= distance <= radius + 0.98, with both bounds inclusive |
| CircleKernel.NegativeRadiusFillsNothing | RyCL/Graphics/Kernels/CircleKernel.cs:44 | a negative radius fills nothing |
| CircleKernel.CentreFilled | RyCL/Graphics/Kernels/CircleKernel.cs:44 | a radius >= 0 fills the centre |
| CircleKernel.StrokeAvoidsInside | RyCL/Graphics/Kernels/CircleKernel.cs:28 | the stroke never writes a pixel strictly inside the radius |
| CircleKernel.StrokeMeetsFillOnRadius | RyCL/Graphics/Kernels/CircleKernel.cs:28-44 | stroke and fill overlap only where the distance equals the radius exactly |
| CircleKernel.RadiusPointStroked | RyCL/Graphics/Kernels/CircleKernel.cs:27-29 | the ring is not empty: the pixel at distance exactly the radius is stroked |
| CircleKernel.DistanceSymmetric | RyCL/Graphics/Kernels/CircleKernel.cs:27-43 | the squared distance is invariant under the axis reflections and the diagonal swap about the centre |
| CircleKernel.CoversSymmetric | RyCL/Graphics/Kernels/CircleKernel.cs:27-44 | stroke and fill are invariant under dx -> -dx, dy -> -dy and swapping dx and dy |
| CircleKernel.DrawCircle | RyCL/Graphics/Kernels/CircleKernel.cs:24-30 | writes the colour iff the pixel is on the ring; otherwise the pixel is unchanged |
| CircleKernel.DrawCircles | RyCL/Graphics/Kernels/CircleKernel.cs:31-37 | the batched stroke matches the single stroke on drawCalls[index.Y] |
| CircleKernel.FillCircle | RyCL/Graphics/Kernels/CircleKernel.cs:39-46 | writes the colour iff the pixel is in the disc |
| CircleKernel.FillCircles | RyCL/Graphics/Kernels/CircleKernel.cs:47-54 | the batched fill matches the single fill on drawCalls[index.Y] |
| PixelKernel.WithAlpha | RyCL/Graphics/Kernels/PixelKernel.cs:29 | the alpha OR always yields an opaque colour |
| PixelKernel.AlphaIsOpaque | RyCL/Graphics/Kernels/PixelKernel.cs:29 | the top byte of the result is 0xFF |
| PixelKernel.AlphaKeepsColour | RyCL/Graphics/Kernels/PixelKernel.cs:29 | the low 24 bits of the input are kept |
| PixelKernel.AlphaIdempotent | RyCL/Graphics/Kernels/PixelKernel.cs:29 | applying the alpha OR again changes nothing |
| PixelKernel.AlphaFixesOpaque | RyCL/Graphics/Kernels/PixelKernel.cs:29 | a colour is unchanged by the alpha OR iff it is already opaque |
| PixelKernel.Filled | RyCL/Graphics/Kernels/PixelKernel.cs:19-22 | a launch of Count fill threads sets the first Count pixels to the value and keeps the rest |
| PixelKernel.FillIdempotent | RyCL/Graphics/Kernels/PixelKernel.cs:19-22 | filling twice with the same value is filling once |
| PixelKernel.FillForgets | RyCL/Graphics/Kernels/PixelKernel.cs:19-22 | a full fill does not depend on what the surface held before |
| PixelKernel.Copied | RyCL/Graphics/Kernels/PixelKernel.cs:23-26 | a launch of Count copy threads gives the output the source's first Count pixels and keeps the rest |
| PixelKernel.CopiedIsPrefix | RyCL/Graphics/Kernels/PixelKernel.cs:23-26 | the copied surface is the source's prefix followed by the old surface's remainder |
| PixelKernel.CopyIdempotent | RyCL/Graphics/Kernels/PixelKernel.cs:23-26 | copying the same source twice is copying once |
| PixelKernel.Fill | RyCL/Graphics/Kernels/PixelKernel.cs:19-22 | one thread writes the value at its index and nothing else |
| PixelKernel.CopyBuffer | RyCL/Graphics/Kernels/PixelKernel.cs:23-26 | one thread copies the input pixel at its index into the output |
| PixelKernel.CopyRaw | RyCL/Graphics/Kernels/PixelKernel.cs:27-30 | one thread stores the input value made opaque |
| PixelKernel.FillAll | RyCL/Graphics/Kernels/PixelKernel.cs:19-22 | a launch over Count indices leaves the surface as Filled describes |
| PixelKernel.CopyAll | RyCL/Graphics/Kernels/PixelKernel.cs:23-26 | a launch over Count indices leaves the output as Copied describes: equal to the input on every launched index, unchanged beyond |
| PixelKernel.CopyRawAll | RyCL/Graphics/Kernels/PixelKernel.cs:27-30 | after the launch every launched pixel is the opaque input value, and the rest are unchanged |
| Normalize.OrderedByX | RyCL/Graphics/RasterGL.cs:82-86 | the stored endpoints have X0 <= X1, form the same pair of points (y moves with x), and are left as given when already ordered |
| Normalize.SortedByY | RyCL/Graphics/RasterGL.cs:94-108 | the three compare-and-swaps yield Y0 <= Y1 <= Y2 and a permutation of the input (x, y) pairs |
| Normalize.SortedTriangleUntouched | RyCL/Graphics/RasterGL.cs:94-108 | an already y-sorted triangle is not reordered |
| Normalize.SortIdempotent | RyCL/Graphics/RasterGL.cs:94-108 | sorting a sorted triangle again changes nothing |
| Normalize.SortDoesNotFixWinding | RyCL/Graphics/RasterGL.cs:112-133 | the y-sort does not fix the winding: a y-sorted triangle that is not collinear and its mirror image both pass the sort unchanged, and exactly one of them fills anything |
| Normalize.OrderIdempotent | RyCL/Graphics/RasterGL.cs:82-86 | ordering ordered endpoints again changes nothing |
| Launch.SingletonBatchIsPaint | RyCL/Graphics/RasterGL.cs:185-194 | a batch of one call has exactly one outcome: the call painted alone |
| Launch.DisjointBatchIsDeterministic | RyCL/Graphics/RasterGL.cs:185-194 | when no pixel is covered by two calls of a batch, the batch's outcome is unique |
| Launch.OutcomeExtend | RyCL/Graphics/RasterGL.cs:185-194 | one more (pixel, call) thread extends the outcome of the batch so far |
| Launch.FlushExtend | RyCL/Graphics/RasterGL.cs:165-174 | launching one more batch extends the outcome of the flushes so far |
| Launch.FlushSkipEmpty | RyCL/Graphics/RasterGL.cs:165-174 | skipping an empty batch keeps the flush outcome |
| Launch.FlushOfEmptyBatches | RyCL/Graphics/RasterGL.cs:165-174 | flushing only empty batches leaves every pixel as it was |
| Launch.UncoveredPixelUnchanged | RyCL/Graphics/RasterGL.cs:165-174 | a pixel covered by no call of any batch keeps its colour |
| Launch.LaterBatchWins | RyCL/Graphics/RasterGL.cs:165-174 | a pixel ends with the colour of a covering call of the last category that covers it |
| Launch.Thread | RyCL/Graphics/RasterGL.cs:185-260 | one (pixel, call) thread writes the call's colour iff the call covers the pixel |
| Launch.RunBatch | RyCL/Graphics/RasterGL.cs:185-194 | a launch over Count × calls leaves each pixel with the colour of some covering call, or unchanged if none covers it |
| PixelKernels.Line | RyCL/PixelKernels.cs:51-68 | writes iff the pixel passes the line kernel's test, so never outside the endpoints' bounding box |
| PixelKernels.Triangle | RyCL/PixelKernels.cs:70-75 | writes iff one of the three line tests over v0v1, v1v2 and v2v0 passes |
| PixelKernels.TriangleFill | RyCL/PixelKernels.cs:76-84 | writes iff w0, w1 and w2 are all non-negative |
| PixelKernels.Rectangle | RyCL/PixelKernels.cs:86-96 | writes iff the pixel is on the border and inside the inclusive box |
| PixelKernels.RectangleFill | RyCL/PixelKernels.cs:97-107 | writes iff the pixel is in the inclusive box |
| PixelKernels.Circle | RyCL/PixelKernels.cs:109-117 | writes iff radius <= distance <= radius + 0.98 |
| PixelKernels.CircleFill | RyCL/PixelKernels.cs:118-125 | writes iff dx² + dy² <= radius² with radius >= 0 |
| PixelKernels.Thread | RyCL/PixelKernels.cs:38-125 | one thread of the kernel a call selects writes its colour iff the call covers the pixel |
| PixelKernels.Run | RyCL/PixelGL.cs:59-60 | a launch of one call over Count pixels paints exactly the covered pixels with its colour and leaves all others unchanged |
| BatchedRaster.FillShowsColour | RyCL/Graphics/RasterGL.cs:58-62 | after Fill every pixel reads back as the colour |
| BatchedRaster.DrawStep | RyCL/Graphics/RasterGL.cs:165-174 | one more flush helper extends the outcome of Draw by its batch |
| BatchedRaster.DrawChain | RyCL/Graphics/RasterGL.cs:165-174 | flushing batches one after another yields the ordered outcome |
| BatchedRaster.DrawChain7 | RyCL/Graphics/RasterGL.cs:165-174 | the same for Draw's seven categories |
| BatchedRaster.DrawShowsLastCover | RyCL/Graphics/RasterGL.cs:165-174 | from a coherent state with no host write pending against a device that is ahead (`Coherent && !Conflicted`), read back after Draw a pixel no call covers keeps the colour it showed before, and a pixel whose last covering category is k shows the colour of a covering call of category k |
| BatchedRaster.DrawShowsAcquiredDevice | RyCL/Graphics/RasterGL.cs:165-174 | from any state, once Draw launched some batch, a pixel no call covers reads back as what the acquired device buffer held |
| BatchedRaster.FreshDrawShowsDeviceMemory | RyCL/Graphics/RasterGL.cs:37-56 | on a freshly constructed surface, the first Draw that launches anything makes each pixel no call covers change from reading zero to reading device memory as allocated |
| BatchedRaster.RasterGL.constructor | RyCL/Graphics/RasterGL.cs:37-56 | a width*height surface in the state `Fresh(memory)`: zeroed host, unspecified device memory, both flags clear, and seven empty queues |
| BatchedRaster.RasterGL.Fill | RyCL/Graphics/RasterGL.cs:58-62 | acquires the device buffer and sets every device pixel to the colour |
| BatchedRaster.RasterGL.Copy | RyCL/Graphics/RasterGL.cs:75-78 | acquires both buffers and copies other's device pixels over the first other.Count pixels of this device buffer |
| BatchedRaster.RasterGL.DrawLine | RyCL/Graphics/RasterGL.cs:80-89 | appends exactly one line, with endpoints ordered by x, to the line queue; the other queues are untouched |
| BatchedRaster.RasterGL.DrawTriangle | RyCL/Graphics/RasterGL.cs:90-111 | drops a triangle with all y equal; otherwise appends it sorted by y to the triangle-stroke queue |
| BatchedRaster.RasterGL.FillTriangle | RyCL/Graphics/RasterGL.cs:112-133 | drops a triangle with all y equal; otherwise appends it sorted by y to the triangle-fill queue |
| BatchedRaster.RasterGL.DrawRectangle | RyCL/Graphics/RasterGL.cs:134-143 | appends the rectangle, with corners ordered by x, to the rectangle-stroke queue |
| BatchedRaster.RasterGL.FillRectangle | RyCL/Graphics/RasterGL.cs:144-153 | appends the rectangle, with corners ordered by x, to the rectangle-fill queue |
| BatchedRaster.RasterGL.DrawCircle | RyCL/Graphics/RasterGL.cs:154-158 | appends the parameters unmodified to the circle-stroke queue |
| BatchedRaster.RasterGL.FillCircle | RyCL/Graphics/RasterGL.cs:159-163 | appends the parameters unmodified to the circle-fill queue |
| BatchedRaster.RasterGL.Draw | RyCL/Graphics/RasterGL.cs:165-174 | afterwards all seven queues are empty. With every queue empty, nothing changes. Otherwise the host array is kept, the device is ahead, and each pixel is decided by the last of the categories (line, triangle stroke, triangle fill, rectangle stroke, rectangle fill, circle stroke, circle fill) that covers it |
| BatchedRaster.RasterGL.Dispose | RyCL/Graphics/RasterGL.cs:175-183 | disposes the surface on the first call only |
| BatchedRaster.RasterGL.DrawLines | RyCL/Graphics/RasterGL.cs:185-194 | an empty queue causes no launch and no state change; otherwise one launch over Count × lines, after which the queue is cleared |
| BatchedRaster.RasterGL.DrawTriangles | RyCL/Graphics/RasterGL.cs:195-205 | the same for the triangle-stroke queue |
| BatchedRaster.RasterGL.FillTriangles | RyCL/Graphics/RasterGL.cs:206-216 | the same for the triangle-fill queue |
| BatchedRaster.RasterGL.DrawRectangles | RyCL/Graphics/RasterGL.cs:217-227 | the same for the rectangle-stroke queue |
| BatchedRaster.RasterGL.FillRectangles | RyCL/Graphics/RasterGL.cs:228-238 | the same for the rectangle-fill queue |
| BatchedRaster.RasterGL.DrawCircles | RyCL/Graphics/RasterGL.cs:239-249 | the same for the circle-stroke queue |
| BatchedRaster.RasterGL.FillCircles | RyCL/Graphics/RasterGL.cs:250-260 | the same for the circle-fill queue |
| ImmediateRaster.ApplyShowsCall | RyCL/PixelGL.cs:59-60 | from a coherent state with no host write pending against a device that is ahead (`Coherent && !Conflicted`), after an immediate call the device is ahead, the host is untouched, and read back the pixels the call covers show its colour while every other pixel keeps the colour it showed before |
| ImmediateRaster.FreshApplyShowsDeviceMemory | RyCL/PixelGL.cs:25-31 | on a freshly constructed surface, the first immediate call makes each pixel it does not cover change from reading zero to reading device memory as allocated |
| ImmediateRaster.ImmediateIsSingletonFlush | RyCL/PixelGL.cs:51-61 | an immediate call has the same effect as queueing that one call in the batched rasteriser (RasterGL.cs) and flushing it |
| ImmediateRaster.PixelGL.constructor | RyCL/PixelGL.cs:25-31 | a width*height surface in the state `Fresh(memory)`: zeroed host, unspecified device memory and both flags clear |
| ImmediateRaster.PixelGL.Fill | RyCL/PixelGL.cs:33-37 | acquires the device buffer and sets every device pixel to the colour |
| ImmediateRaster.PixelGL.DrawLine | RyCL/PixelGL.cs:51-61 | orders the endpoints by x, then acquires and paints the line |
| ImmediateRaster.PixelGL.DrawTriangle | RyCL/PixelGL.cs:62-83 | a triangle with all y equal leaves the buffer and its flags untouched; otherwise the triangle is sorted by y, then the buffer is acquired and the triangle painted |
| ImmediateRaster.PixelGL.DrawRectangle | RyCL/PixelGL.cs:84-94 | orders the corners by x, then acquires and paints the border |
| ImmediateRaster.PixelGL.DrawCircle | RyCL/PixelGL.cs:95-99 | acquires and paints the ring with the parameters as given |
| ImmediateRaster.PixelGL.FillTriangle | RyCL/PixelGL.cs:101-122 | a triangle with all y equal leaves the buffer untouched; otherwise it is sorted by y, then acquired and filled |
| ImmediateRaster.PixelGL.FillRectangle | RyCL/PixelGL.cs:123-133 | orders the corners by x, then acquires and fills the box |
| ImmediateRaster.PixelGL.FillCircle | RyCL/PixelGL.cs:134-138 | acquires and fills the disc with the parameters as given |
| ImmediateRaster.PixelGL.Dispose | RyCL/PixelGL.cs:140-148 | disposes the surface on the first call only |

## Left out

- ILGPU plumbing is not modelled: contexts, accelerators, kernel compilation (`LoadAutoGroupedStreamKernel`, `PixelKernels.Compile`), `Synchronize` and memory disposal. Device memory is a second array whose initial contents are unspecified. Host-device copies are whole-array assignments. A kernel launch is a sequential loop over its indices.
- The `useCpu` choice of accelerator is a constructor parameter without effect.
- `FillRandom` (RyCL/Graphics/RasterGL.cs:63-74, RyCL/PixelGL.cs:38-49) is left out: it fills the surface from a device random number generator. The per-thread copy it launches (`Kernel_Copy_Raw`) is modelled.
- Parallel scheduling inside one launch is not modelled. `Launch.RunBatch` states only that a pixel gets the colour of some covering call of the batch. Which call wins among overlapping calls of one batch is left open.
- Floating point is not bit-exact. The line distance and the circle ring bound 0.98 are computed over the reals. The kernels' `sqrt` comparisons are replaced by squared comparisons, and lemmas show these are equivalent for the true square root. Rounding at the half-pixel and ring boundaries can differ from IEEE doubles.
- 32-bit overflow in the edge functions, squared distances and `y*width + x` is not modelled. Integers are unbounded, so extreme coordinates that would wrap in C# do not wrap here.
- `Kernel_Draw_Lines` in RyCL/Graphics/Kernels/TriangleKernel.cs:73-90 is dead code, never loaded, and is left out.
- `Kernel_Fill`, `Kernel_Copy_Buffer` and `Kernel_Copy_Raw` in RyCL/PixelKernels.cs:38-49 are textually the kernels of RyCL/Graphics/Kernels/PixelKernel.cs. The `PixelKernel` members model both.
- Each batched kernel (`Kernel_*_s`) runs the single-call kernel's code on `drawCalls[index.Y]`. A batched launch is modelled by `Launch.RunBatch`, whose `Launch.Thread` runs the single-call method on `calls[j]`. The seven batched entry points (`LineKernel.DrawLines`, `TriangleKernel.DrawTriangles` and so on) are modelled as stand-alone methods, each proved to decide its pixel as the single-call method does. `RunBatch` itself does not call them. The immediate kernels in `PixelKernels` likewise use the same tests.
- A fresh surface is not coherent. HostBuffer's constructor (RyCL/HostBuffer.cs:49-61) zeroes the host array and sets no flag, and neither RasterGL.cs:37-56 nor PixelGL.cs:25-31 pushes it to the device. Until the first `Fill`, a pixel that no call covers reads back as device memory as allocated, and those contents depend on the ILGPU back end. `BatchedRaster.DrawShowsLastCover` and `ImmediateRaster.ApplyShowsCall` assume a coherent state, so they say nothing about this case. `Surface.FreshSurfaceIsIncoherent`, `BatchedRaster.FreshDrawShowsDeviceMemory` and `ImmediateRaster.FreshApplyShowsDeviceMemory` state what happens.
- Array index exceptions are not modelled: the indexers and pixel accessors require an index inside the surface, where C# would throw.
- BatchedRaster.RasterGL.Copy: requires the two surfaces to be distinct objects with distinct arrays. Copying a surface onto itself is not modelled.
- Surface.HostBuffer.GetHostBufferRaw: returns the host array. Its `ref` return, which lets a caller replace the array, is not modelled.
- Use after `Dispose` is not checked: disposal is a flag, and the memory release it performs is left out.
- Runner and UI code (RyCL.Runner.DX, RyCL.Runner.Cli) is left out: it is Direct2D drawing, key handling, timing and demo drivers.
- The line kernel's `X0 == X1` case follows the code. The slope becomes infinite or NaN and the comparison fails, so vertical segments draw nothing (`LineKernel.VerticalCoversNothing`).
- Triangle fill follows the code. It fills only triangles whose edge functions, as written, are non-negative, and the y-sort does not fix the winding (`TriangleKernel.WindingDecidesFill`, `Normalize.SortDoesNotFixWinding`).
