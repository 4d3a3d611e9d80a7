/** Interleaved PCM to planar samples (pcm-decode.ts). */
module PcmDecode {
  import opened Prelude
  import opened Wrap32

  datatype Format = Float32 | Int16 | Int24 | Int32

  function Bytes(f: Format): nat { if f == Int16 then 2 else if f == Int24 then 3 else 4 }

  /** Bits and float flag as the header gives them; None is an unsupported depth. */
  function FormatOf(bits: int, float: bool): Option<Format>
  {
    if float then Some(Float32)
    else if bits == 16 then Some(Int16) else if bits == 24 then Some(Int24) else if bits == 32 then Some(Int32) else None
  }

  /** The little-endian unsigned number of n bytes at p. */
  function Unsigned(b: seq<int>, p: nat, n: nat): int
    requires p + n <= |b|
    decreases n
  {
    if n == 0 then 0 else b[p] + 256 * Unsigned(b, p + 1, n - 1)
  }

  /** Two's complement of n bytes. */
  function Signed(u: int, n: nat): int { if u < Pow2(8 * n) / 2 then u else u - Pow2(8 * n) }

  /** One sample; `f32` reads four bytes as a float. */
  function Sample(b: seq<int>, p: nat, f: Format, f32: seq<int> -> real): real
    requires p + Bytes(f) <= |b|
  {
    match f
    case Float32 => f32(b[p..p + 4])
    case Int16 => Signed(Unsigned(b, p, 2), 2) as real / 32768.0
    case Int24 => Signed(Unsigned(b, p, 3), 3) as real / 8388608.0
    case Int32 => Signed(Unsigned(b, p, 4), 4) as real / 2147483648.0
  }

  /** Where sample c of frame i starts. */
  function Start(offset: nat, i: nat, c: nat, channels: nat, f: Format): nat
  {
    offset + (i * channels + c) * Bytes(f)
  }

  lemma StartFits(offset: nat, i: nat, c: nat, channels: nat, frames: nat, f: Format)
    requires i < frames && c < channels
    ensures Start(offset, i, c, channels, f) + Bytes(f) <= offset + frames * channels * Bytes(f)
  {
    var k, n, size := i * channels + c, frames * channels, Bytes(f);
    assert k + 1 <= n by {
      assert (i + 1) * channels <= frames * channels;
      assert (i + 1) * channels == i * channels + channels;
    }
    assert (k + 1) * size <= n * size;
    assert (k + 1) * size == k * size + size;
  }

  // --- 24 bits -------------------------------------------------------------------------------

  /** Shifting left by 8 in 32 bits and back by 8 extends the sign of 24 bits. */
  lemma SignExtends(u: int)
    requires 0 <= u < 0x100_0000
    ensures ToInt32(u * 256) / 256 == Signed(u, 3)
  {
    Pow2Is24();
    if u < 0x80_0000 {
      assert ToInt32(u * 256) == u * 256;
    } else {
      assert ToInt32(u * 256) == u * 256 - TWO32;
    }
  }

  lemma Pow2Is24()
    ensures Pow2(8 * 3) == 0x100_0000 && Pow2(8 * 2) == 0x1_0000 && Pow2(8 * 4) == TWO32
  {
    Pow2Is32();
    Pow2Adds(8, 16);
  }

  /** What SignExtends is used for: the three bytes as the source combines them. */
  function Read24(b: seq<int>, p: nat): int
    requires p + 3 <= |b|
  {
    ToInt32((b[p] + b[p + 1] * 256 + b[p + 2] * 65536) * 256) / 256
  }

  lemma Read24IsSigned(b: seq<int>, p: nat)
    requires p + 3 <= |b| && IsBytes(b)
    ensures Read24(b, p) == Signed(Unsigned(b, p, 3), 3)
  {
    Unfold3(b, p);
    SignExtends(b[p] + b[p + 1] * 256 + b[p + 2] * 65536);
  }

  lemma Unfold3(b: seq<int>, p: nat)
    requires p + 3 <= |b|
    ensures Unsigned(b, p, 3) == b[p] + b[p + 1] * 256 + b[p + 2] * 65536
  {
    assert Unsigned(b, p + 2, 1) == b[p + 2] + 256 * Unsigned(b, p + 3, 0);
    assert Unsigned(b, p + 1, 2) == b[p + 1] + 256 * Unsigned(b, p + 2, 1);
  }

  function Encode24(x: int): seq<int>
  {
    [x % 256, (x / 256) % 256, (x / 65536) % 256]
  }

  /** Every 24-bit sample is read back from its three bytes. */
  lemma Encoded24IsReadBack(x: int, before: seq<int>, after: seq<int>)
    requires -0x80_0000 <= x < 0x80_0000 && IsBytes(before) && IsBytes(after)
    ensures Read24(before + Encode24(x) + after, |before|) == x
  {
    var b, p := before + Encode24(x) + after, |before|;
    assert b[p] == x % 256 && b[p + 1] == (x / 256) % 256 && b[p + 2] == (x / 65536) % 256;
    var a := x / 256;
    assert x / 65536 == a / 256;
    var u := if x < 0 then x + 0x100_0000 else x;
    assert b[p] + b[p + 1] * 256 + b[p + 2] * 65536 == u;
    SignExtends(u);
    Pow2Is24();
  }

  // --- The loops -----------------------------------------------------------------------------------

  /** One channel of the integer formats and of unaligned floats. */
  method DecodeChannel(src: seq<int>, offset: nat, frames: nat, channels: nat, c: nat, f: Format, f32: seq<int> -> real,
                       o: array<real>, outOffset: nat)
    requires c < channels && offset + frames * channels * Bytes(f) <= |src| && outOffset + frames <= o.Length && IsBytes(src)
    modifies o
    ensures forall i :: 0 <= i < frames ==>
              Start(offset, i, c, channels, f) + Bytes(f) <= |src| &&
              o[outOffset + i] == Sample(src, Start(offset, i, c, channels, f), f, f32)
    ensures forall k :: 0 <= k < o.Length && !(outOffset <= k < outOffset + frames) ==> o[k] == old(o[k])
  {
    for i := 0 to frames
      invariant forall k :: 0 <= k < i ==>
                  Start(offset, k, c, channels, f) + Bytes(f) <= |src| &&
                  o[outOffset + k] == Sample(src, Start(offset, k, c, channels, f), f, f32)
      invariant forall k :: 0 <= k < o.Length && !(outOffset <= k < outOffset + i) ==> o[k] == old(o[k])
    {
      StartFits(offset, i, c, channels, frames, f);
      o[outOffset + i] := ReadSample(src, Start(offset, i, c, channels, f), f, f32);
    }
  }

  function ReadSample(b: seq<int>, p: nat, f: Format, f32: seq<int> -> real): (x: real)
    requires p + Bytes(f) <= |b| && IsBytes(b)
    ensures x == Sample(b, p, f, f32)
  {
    if f == Int24 then
      Read24IsSigned(b, p);
      Read24(b, p) as real / 8388608.0
    else Sample(b, p, f, f32)
  }

  /** One channel of floats at a word boundary, walked through a view by whole frames. */
  method DecodeAligned(src: seq<int>, offset: nat, frames: nat, channels: nat, c: nat, f32: seq<int> -> real,
                       o: array<real>, outOffset: nat)
    requires c < channels && offset + frames * channels * 4 <= |src| && outOffset + frames <= o.Length
    modifies o
    ensures forall i :: 0 <= i < frames ==>
              Start(offset, i, c, channels, Float32) + 4 <= |src| &&
              o[outOffset + i] == Sample(src, Start(offset, i, c, channels, Float32), Float32, f32)
    ensures forall k :: 0 <= k < o.Length && !(outOffset <= k < outOffset + frames) ==> o[k] == old(o[k])
  {
    var j := c;
    for i := 0 to frames
      invariant j == i * channels + c
      invariant forall k :: 0 <= k < i ==>
                  Start(offset, k, c, channels, Float32) + 4 <= |src| &&
                  o[outOffset + k] == Sample(src, Start(offset, k, c, channels, Float32), Float32, f32)
      invariant forall k :: 0 <= k < o.Length && !(outOffset <= k < outOffset + i) ==> o[k] == old(o[k])
    {
      StartFits(offset, i, c, channels, frames, Float32);
      assert offset + j * 4 == Start(offset, i, c, channels, Float32);
      o[outOffset + i] := f32(src[offset + j * 4..offset + j * 4 + 4]);
      assert (i + 1) * channels == i * channels + channels;
      j := j + channels;
    }
  }

  ghost predicate Planar(src: seq<int>, offset: nat, frames: nat, channels: nat, c: nat, f: Format, f32: seq<int> -> real,
                         o: array<real>, outOffset: nat)
    requires outOffset + frames <= o.Length
    reads o
  {
    forall i :: 0 <= i < frames ==>
      Start(offset, i, c, channels, f) + Bytes(f) <= |src| &&
      o[outOffset + i] == Sample(src, Start(offset, i, c, channels, f), f, f32)
  }

  predicate Accepts(size: nat, offset: nat, frames: nat, channels: nat, format: Option<Format>, bytesPerSample: nat,
                    out: seq<array<real>>, outOffset: nat)
  {
    && channels <= |out| && offset + frames * channels * bytesPerSample <= size
    && (forall c :: 0 <= c < channels ==> outOffset + frames <= out[c].Length)
    && format.Some?
  }

  /** Refused arguments leave the output alone; otherwise channel c of frame i is the sample the
      source holds there, on either path for floats. */
  method DecodeInterleaved(src: seq<int>, offset: nat, frames: nat, channels: nat, bits: nat, float: bool, f32: seq<int> -> real,
                           out: seq<array<real>>, outOffset: nat) returns (ok: bool)
    requires IsBytes(src) && (float ==> bits == 32) && forall i, j :: 0 <= i < j < |out| ==> out[i] != out[j]
    modifies out
    ensures ok == Accepts(|src|, offset, frames, channels, FormatOf(bits, float), bits / 8, out, outOffset)
    ensures ok ==> forall c :: 0 <= c < channels ==>
                     Planar(src, offset, frames, channels, c, FormatOf(bits, float).value, f32, out[c], outOffset)
    ensures !ok ==> forall c :: 0 <= c < |out| ==> out[c][..] == old(out[c][..])
  {
    if |out| < channels || offset + frames * channels * (bits / 8) > |src| {
      return false;
    }
    for c := 0 to channels
      invariant forall k :: 0 <= k < c ==> outOffset + frames <= out[k].Length
    {
      if out[c].Length < outOffset + frames {
        return false;
      }
    }
    var format := FormatOf(bits, float);
    if format.None? {
      return false;
    }
    assert Bytes(format.value) == bits / 8;
    for c := 0 to channels
      invariant forall k :: 0 <= k < c ==>
                  Planar(src, offset, frames, channels, k, format.value, f32, out[k], outOffset)
    {
      if float && offset % 4 == 0 {
        DecodeAligned(src, offset, frames, channels, c, f32, out[c], outOffset);
      } else {
        DecodeChannel(src, offset, frames, channels, c, format.value, f32, out[c], outOffset);
      }
    }
    return true;
  }
}
