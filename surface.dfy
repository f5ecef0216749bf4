/** The dual-resident pixel surface of RyCL/HostBuffer.cs: a host array and a
    device array of packed colours kept in step by two staleness flags, and the
    DeviceBuffer descriptor through which kernels address device memory. */
module Surface {

  /** A packed 0xAARRGGBB colour: the 32 bits of the C# int stored in a pixel. */
  type Color = bv32

  function Min(a: int, b: int): int { if a <= b then a else b }
  function Max(a: int, b: int): int { if a <= b then b else a }
  function Abs(a: int): int { if a < 0 then -a else a }

  /** C# integer division, which rounds toward zero. */
  function TruncDiv(a: int, b: int): int
    requires b != 0
  {
    var q := Abs(a) / Abs(b);
    if (a < 0) == (b < 0) then q else -q
  }

  /** C# remainder, defined by the language as a - (a / b) * b. */
  function TruncMod(a: int, b: int): int
    requires b != 0
  {
    a - b * TruncDiv(a, b)
  }

  /** DeviceBuffer.Index(x, y): the row-major linear index of pixel (x, y). */
  function Index(width: int, x: int, y: int): int
  {
    y * width + x
  }

  /** DeviceBuffer.Index(i): the pixel (x, y) of linear index i. Going back
      with Index gives i again, for every i and every non-zero width. */
  function Coordinates(width: int, i: int): (p: (int, int))
    requires width != 0
    ensures Index(width, p.0, p.1) == i
  {
    (TruncMod(i, width), TruncDiv(i, width))
  }

  /** The other direction of the round trip: a pixel inside a row comes back
      from its linear index. */
  lemma CoordinatesOfIndex(width: int, x: int, y: int)
    requires width > 0 && 0 <= x < width && 0 <= y
    ensures Coordinates(width, Index(width, x, y)) == (x, y)
  {
    var i := Index(width, x, y);
    assert i >= 0 by { assert y * width >= 0; }
    DivisionIsUnique(i, width, y, x);
    assert TruncDiv(i, width) == i / width;
  }

  lemma DivisionIsUnique(i: int, w: int, q: int, r: int)
    requires w > 0 && 0 <= r < w && i == q * w + r
    ensures i / w == q
  {
    var q', r' := i / w, i % w;
    assert i == q' * w + r';
    var d := q' - q;
    assert d * w == r - r' by { assert d * w == q' * w - q * w; }
    if d >= 1 {
      MultiplyAtLeast(d, w);
    } else if d <= -1 {
      MultiplyAtLeast(-d, w);
    }
  }

  lemma MultiplyAtLeast(a: int, w: int)
    requires a >= 1 && w > 0
    ensures a * w >= w
  {
    assert a * w == (a - 1) * w + w;
    assert (a - 1) * w >= 0;
  }

  lemma MultiplyMonotonic(a: int, b: int, w: int)
    requires w > 0
    ensures a <= b <==> a * w <= b * w
  {
    if a > b {
      MultiplyAtLeast(a - b, w);
      assert a * w == (a - b) * w + b * w;
    } else {
      assert b * w == (b - a) * w + a * w;
      assert (b - a) * w >= 0;
    }
  }

  /** Every index of a width-by-height surface names a pixel of the surface. */
  lemma CoordinatesInSurface(width: int, height: int, i: int)
    requires width > 0 && 0 <= i < width * height
    ensures 0 <= Coordinates(width, i).0 < width
    ensures 0 <= Coordinates(width, i).1 < height
  {
    var q := i / width;
    assert i == q * width + i % width;
    MultiplyMonotonic(height, q, width);
    MultiplyMonotonic(q, -1, width);
    assert TruncDiv(i, width) == q;
    assert TruncMod(i, width) == i - width * q;
    assert i - width * q == i % width;
  }

  /** The struct DeviceBuffer: the surface's dimensions and a view of device
      memory. GetPixel and SetPixel read and write that memory in place. */
  datatype DeviceBuffer = DeviceBuffer(width: int, height: int, buffer: array<Color>)
  {
    predicate Valid()
    {
      buffer.Length == width * height
    }

    method GetPixel(i: int) returns (v: Color)
      requires 0 <= i < buffer.Length
      ensures v == buffer[i]
    {
      v := buffer[i];
    }

    method SetPixel(i: int, v: Color)
      requires 0 <= i < buffer.Length
      modifies buffer
      ensures buffer[..] == old(buffer[..])[i := v]
    {
      buffer[i] := v;
    }

    method GetPixelAt(x: int, y: int) returns (v: Color)
      requires 0 <= Index(width, x, y) < buffer.Length
      ensures v == buffer[Index(width, x, y)]
    {
      v := buffer[Index(width, x, y)];
    }

    method SetPixelAt(x: int, y: int, v: Color)
      requires 0 <= Index(width, x, y) < buffer.Length
      modifies buffer
      ensures buffer[..] == old(buffer[..])[Index(width, x, y) := v]
    {
      buffer[Index(width, x, y)] := v;
    }
  }

  /** The abstract state of a HostBuffer: both copies of the pixels and both
      flags. syncCpu: the device is ahead (the host copy is stale).
      syncGpu: the host is ahead (the device copy is stale). */
  datatype SurfaceState = SurfaceState(host: seq<Color>, device: seq<Color>, syncCpu: bool, syncGpu: bool)

  /** What the indexer getter and GetHostBufferRaw do first: when the device
      is ahead, copy device memory over the host array and clear syncCpu. */
  function Pull(s: SurfaceState): SurfaceState
  {
    if s.syncCpu then s.(host := s.device, syncCpu := false) else s
  }

  /** The indexer setter: store into the host array and set syncGpu; syncCpu
      is neither consulted nor cleared. */
  function Write(s: SurfaceState, i: int, v: Color): SurfaceState
    requires 0 <= i < |s.host|
  {
    s.(host := s.host[i := v], syncGpu := true)
  }

  /** GetDeviceBuffer: when the host is ahead, copy it over device memory and
      clear syncGpu; in every case set syncCpu, since a kernel is about to
      write device memory. */
  function Acquire(s: SurfaceState): SurfaceState
  {
    var t := if s.syncGpu then s.(device := s.host, syncGpu := false) else s;
    t.(syncCpu := true)
  }

  /** The pixels the surface is meant to hold: the device copy when it is
      ahead, otherwise the host copy. */
  function Logical(s: SurfaceState): seq<Color>
  {
    if s.syncCpu then s.device else s.host
  }

  /** The two copies agree whenever neither flag claims one of them is ahead. */
  ghost predicate Coherent(s: SurfaceState)
  {
    |s.host| == |s.device| && (!s.syncCpu && !s.syncGpu ==> s.host == s.device)
  }

  /** Both flags set: a host write happened while the device was ahead. */
  predicate Conflicted(s: SurfaceState)
  {
    s.syncCpu && s.syncGpu
  }

  /** The state HostBuffer's constructor leaves behind: a zeroed host array,
      device memory as it was allocated, and neither flag set. */
  function Fresh(device: seq<Color>): SurfaceState
  {
    SurfaceState(seq(|device|, _ => 0), device, false, false)
  }

  /** Nothing pushes the zeroed host array to device memory: a fresh surface
      reads back as zeros, yet it is coherent only when device memory happens
      to be zero, and the first acquire hands the kernels device memory as it
      was allocated. */
  lemma FreshSurfaceIsIncoherent(device: seq<Color>)
    ensures Logical(Fresh(device)) == seq(|device|, _ => 0)
    ensures Coherent(Fresh(device)) <==> device == seq(|device|, _ => 0)
    ensures Acquire(Fresh(device)).device == device
  {
  }

  lemma PullPreservesCoherence(s: SurfaceState)
    requires Coherent(s)
    ensures Coherent(Pull(s)) && !Pull(s).syncCpu
    ensures Pull(s).host == Logical(s) && Pull(s).device == s.device
  {
  }

  lemma WritePreservesCoherence(s: SurfaceState, i: int, v: Color)
    requires Coherent(s) && 0 <= i < |s.host|
    ensures Coherent(Write(s, i, v))
  {
  }

  lemma AcquirePreservesCoherence(s: SurfaceState)
    requires Coherent(s)
    ensures Coherent(Acquire(s)) && Acquire(s).syncCpu && !Acquire(s).syncGpu
    ensures Acquire(s).host == s.host
  {
  }

  /** Outside the conflicted state, acquiring hands the kernels exactly the
      pixels the surface is meant to hold. */
  lemma AcquireExposesLogical(s: SurfaceState)
    requires Coherent(s) && !Conflicted(s)
    ensures Acquire(s).device == Logical(s)
    ensures Logical(Acquire(s)) == Logical(s)
  {
  }

  /** A host write is visible to later reads exactly when the device was not
      ahead; when it was, the next read pulls device memory over it. */
  lemma WriteVisibility(s: SurfaceState, i: int, v: Color)
    requires 0 <= i < |s.host| && |s.device| == |s.host|
    ensures !s.syncCpu ==> Logical(Write(s, i, v)) == Logical(s)[i := v]
    ensures s.syncCpu ==> Pull(Write(s, i, v)).host == s.device
  {
  }

  /** The hazard: with the device ahead, a host write followed by an acquire
      pushes the old host array (with one slot changed) over device memory,
      so every pixel that only the device held is lost. */
  lemma {:induction false} HostWriteDiscardsDevicePixels(s: SurfaceState, i: int, v: Color, j: int)
    requires s.syncCpu && 0 <= i < |s.host| && |s.device| == |s.host|
    requires 0 <= j < |s.host| && j != i && s.device[j] != s.host[j]
    ensures Conflicted(Write(s, i, v))
    ensures Acquire(Write(s, i, v)).device == s.host[i := v]
    ensures Acquire(Write(s, i, v)).device[j] != Logical(s)[j]
  {
  }

  /** Reading first (which pulls) avoids the hazard: the written pixel and
      every device pixel reach device memory. */
  lemma PullBeforeWriteKeepsDevicePixels(s: SurfaceState, i: int, v: Color)
    requires 0 <= i < |s.host| && |s.device| == |s.host|
    ensures Acquire(Write(Pull(s), i, v)).device == Logical(s)[i := v]
  {
  }

  lemma AcquireIsIdempotent(s: SurfaceState)
    ensures Acquire(Acquire(s)) == Acquire(s)
  {
  }

  lemma PullIsIdempotent(s: SurfaceState)
    ensures Pull(Pull(s)) == Pull(s)
  {
  }

  /** The class HostBuffer. The device memory block is the array `memory`;
      `deviceBuffer` is the descriptor handed to kernels. */
  class HostBuffer {
    var disposed: bool
    var syncCpu: bool
    var syncGpu: bool
    const width: int
    const height: int
    const host: array<Color>
    const memory: array<Color>
    const deviceBuffer: DeviceBuffer

    ghost predicate Valid()
    {
      && host.Length == width * height
      && memory.Length == host.Length
      && host != memory
      && deviceBuffer == DeviceBuffer(width, height, memory)
    }

    function Count(): int
    {
      host.Length
    }

    ghost function State(): SurfaceState
      reads this, host, memory
    {
      SurfaceState(host[..], memory[..], syncCpu, syncGpu)
    }

    /** A zeroed host array of width*height pixels, device memory of the same
        size whose initial contents are not specified, and both flags clear. */
    constructor (width: int, height: int)
      requires 0 <= width * height
      ensures Valid() && fresh(host) && fresh(memory)
      ensures this.width == width && this.height == height
      ensures Count() == width * height
      ensures host[..] == seq(width * height, _ => 0)
      ensures !syncCpu && !syncGpu && !disposed
      ensures State() == Fresh(memory[..])
    {
      disposed := false;
      syncCpu := false;
      syncGpu := false;
      this.width := width;
      this.height := height;
      host := new Color[width * height](_ => 0);
      var m := new Color[width * height];
      memory := m;
      deviceBuffer := DeviceBuffer(width, height, m);
    }

    /** The indexer getter this[i]. */
    method Get(i: int) returns (v: Color)
      requires Valid() && 0 <= i < Count()
      modifies this`syncCpu, host
      ensures Valid()
      ensures State() == Pull(old(State()))
      ensures v == Pull(old(State())).host[i]
    {
      if syncCpu {
        forall k | 0 <= k < host.Length {
          host[k] := memory[k];
        }
        syncCpu := false;
      }
      v := host[i];
    }

    /** The indexer setter this[i] = v. */
    method Set(i: int, v: Color)
      requires Valid() && 0 <= i < Count()
      modifies this`syncGpu, host
      ensures Valid()
      ensures State() == Write(old(State()), i, v)
    {
      syncGpu := true;
      host[i] := v;
    }

    /** The indexer getter this[x, y]. */
    method GetAt(x: int, y: int) returns (v: Color)
      requires Valid() && 0 <= Index(width, x, y) < Count()
      modifies this`syncCpu, host
      ensures Valid()
      ensures State() == Pull(old(State()))
      ensures v == Pull(old(State())).host[Index(width, x, y)]
    {
      v := Get(Index(width, x, y));
    }

    /** The indexer setter this[x, y] = v. */
    method SetAt(x: int, y: int, v: Color)
      requires Valid() && 0 <= Index(width, x, y) < Count()
      modifies this`syncGpu, host
      ensures Valid()
      ensures State() == Write(old(State()), Index(width, x, y), v)
    {
      Set(Index(width, x, y), v);
    }

    method GetDeviceBuffer() returns (db: DeviceBuffer)
      requires Valid()
      modifies this`syncCpu, this`syncGpu, memory
      ensures Valid()
      ensures State() == Acquire(old(State()))
      ensures db == deviceBuffer && db.Valid()
    {
      if syncGpu {
        forall k | 0 <= k < memory.Length {
          memory[k] := host[k];
        }
        syncGpu := false;
      }
      syncCpu := true;
      db := deviceBuffer;
    }

    method GetHostBufferRaw() returns (a: array<Color>)
      requires Valid()
      modifies this`syncCpu, host
      ensures Valid()
      ensures State() == Pull(old(State()))
      ensures a == host
    {
      if syncCpu {
        forall k | 0 <= k < host.Length {
          host[k] := memory[k];
        }
        syncCpu := false;
      }
      a := host;
    }

    method Dispose()
      modifies this`disposed
      ensures disposed
    {
      if disposed {
        return;
      }
      disposed := true;
    }
  }
}
