/** RyCL/Graphics/Kernels/PixelKernel.cs: the whole-surface kernels. Each
    thread writes its own index unconditionally; a launch of `count` threads
    is modelled as a loop over the indices 0 .. count-1. */
module PixelKernel {
  import opened Surface

  /** The alpha mask 0xFF << 24. */
  const OpaqueMask: Color := 0xFF00_0000

  /** Kernel_Copy_Raw's colour: the input with its top byte forced on. */
  function WithAlpha(v: Color): (r: Color)
    ensures r & OpaqueMask == OpaqueMask
  {
    v | OpaqueMask
  }

  /** The top byte of a copied raw colour is 0xFF. */
  lemma AlphaIsOpaque(v: Color)
    ensures WithAlpha(v) >> 24 == 0xFF
  {
  }

  /** The low 24 bits (red, green, blue) pass through unchanged. */
  lemma AlphaKeepsColour(v: Color)
    ensures WithAlpha(v) & 0xFF_FFFF == v & 0xFF_FFFF
  {
  }

  /** Forcing the alpha twice is forcing it once. */
  lemma AlphaIdempotent(v: Color)
    ensures WithAlpha(WithAlpha(v)) == WithAlpha(v)
  {
  }

  /** The colour is returned as it was exactly when it was already opaque. */
  lemma AlphaFixesOpaque(v: Color)
    ensures WithAlpha(v) == v <==> v >> 24 == 0xFF
  {
  }

  /** The first `count` pixels of s set to value, the rest as they were. */
  function Filled(s: seq<Color>, count: int, value: Color): (r: seq<Color>)
    ensures |r| == |s|
    ensures forall i :: 0 <= i < |s| ==> r[i] == (if i < count then value else s[i])
  {
    seq(|s|, i requires 0 <= i < |s| => if i < count then value else s[i])
  }

  /** Filling twice with the same colour is filling once. */
  lemma FillIdempotent(s: seq<Color>, count: int, value: Color)
    ensures Filled(Filled(s, count, value), count, value) == Filled(s, count, value)
  {
  }

  /** A fill of the whole surface leaves every pixel equal to the colour,
      whatever was there before. */
  lemma FillForgets(s: seq<Color>, t: seq<Color>, value: Color)
    requires |s| == |t|
    ensures Filled(s, |s|, value) == Filled(t, |t|, value)
  {
  }

  /** The surface after `count` threads of Kernel_Copy_Buffer: the first
      count pixels come from the source, the rest are kept. */
  function Copied(s: seq<Color>, source: seq<Color>, count: int): (r: seq<Color>)
    requires count <= |source|
    ensures |r| == |s|
    ensures forall i :: 0 <= i < |s| ==> r[i] == (if i < count then source[i] else s[i])
  {
    seq(|s|, i requires 0 <= i < |s| => if i < count then source[i] else s[i])
  }

  /** A copy of count pixels is the source's prefix followed by the rest of
      the old surface. */
  lemma CopiedIsPrefix(s: seq<Color>, source: seq<Color>, count: int)
    requires 0 <= count <= |source| && count <= |s|
    ensures Copied(s, source, count) == source[..count] + s[count..]
  {
    var r, t := Copied(s, source, count), source[..count] + s[count..];
    assert forall i :: 0 <= i < |r| ==> r[i] == t[i] by {
      forall i | 0 <= i < |r|
        ensures r[i] == t[i]
      {
        if i < count {
          assert t[i] == source[..count][i];
        } else {
          assert t[i] == s[count..][i - count];
        }
      }
    }
  }

  /** Copying the same source twice is copying once. */
  lemma CopyIdempotent(s: seq<Color>, source: seq<Color>, count: int)
    requires count <= |source|
    ensures Copied(Copied(s, source, count), source, count) == Copied(s, source, count)
  {
  }

  /** One thread of Kernel_Fill. */
  method Fill(index: int, value: Color, output: DeviceBuffer)
    requires 0 <= index < output.buffer.Length
    modifies output.buffer
    ensures output.buffer[..] == old(output.buffer[..])[index := value]
  {
    output.SetPixel(index, value);
  }

  /** One thread of Kernel_Copy_Buffer. */
  method CopyBuffer(index: int, input: DeviceBuffer, output: DeviceBuffer)
    requires 0 <= index < input.buffer.Length && 0 <= index < output.buffer.Length
    requires input.buffer != output.buffer
    modifies output.buffer
    ensures output.buffer[..] == old(output.buffer[..])[index := input.buffer[index]]
  {
    var v := input.GetPixel(index);
    output.SetPixel(index, v);
  }

  /** One thread of Kernel_Copy_Raw. */
  method CopyRaw(index: int, input: array<Color>, output: DeviceBuffer)
    requires 0 <= index < input.Length && 0 <= index < output.buffer.Length
    requires input != output.buffer
    modifies output.buffer
    ensures output.buffer[..] == old(output.buffer[..])[index := WithAlpha(input[index])]
  {
    output.SetPixel(index, input[index] | (0xFF << 24));
  }

  /** A launch of Kernel_Fill over `count` indices. */
  method FillAll(count: int, value: Color, output: DeviceBuffer)
    requires 0 <= count <= output.buffer.Length
    modifies output.buffer
    ensures output.buffer[..] == Filled(old(output.buffer[..]), count, value)
  {
    var i := 0;
    while i < count
      invariant 0 <= i <= count
      invariant output.buffer[..] == Filled(old(output.buffer[..]), i, value)
    {
      Fill(i, value, output);
      i := i + 1;
    }
  }

  /** A launch of Kernel_Copy_Buffer over `count` indices: the first count
      pixels of the output become the input's. */
  method CopyAll(count: int, input: DeviceBuffer, output: DeviceBuffer)
    requires 0 <= count <= input.buffer.Length && count <= output.buffer.Length
    requires input.buffer != output.buffer
    modifies output.buffer
    ensures output.buffer[..] == Copied(old(output.buffer[..]), input.buffer[..], count)
  {
    var i := 0;
    while i < count
      invariant 0 <= i <= count
      invariant output.buffer[..] == Copied(old(output.buffer[..]), input.buffer[..], i)
    {
      CopyBuffer(i, input, output);
      i := i + 1;
    }
  }

  /** A launch of Kernel_Copy_Raw over `count` indices. */
  method CopyRawAll(count: int, input: array<Color>, output: DeviceBuffer)
    requires 0 <= count <= input.Length && count <= output.buffer.Length
    requires input != output.buffer
    modifies output.buffer
    ensures |output.buffer[..]| == |old(output.buffer[..])|
    ensures forall i :: 0 <= i < count ==> output.buffer[i] == WithAlpha(input[i])
    ensures forall i :: count <= i < output.buffer.Length ==> output.buffer[i] == old(output.buffer[i])
  {
    var i := 0;
    while i < count
      invariant 0 <= i <= count
      invariant forall k :: 0 <= k < i ==> output.buffer[k] == WithAlpha(input[k])
      invariant forall k :: i <= k < output.buffer.Length ==> output.buffer[k] == old(output.buffer[k])
    {
      CopyRaw(i, input, output);
      i := i + 1;
    }
  }
}
