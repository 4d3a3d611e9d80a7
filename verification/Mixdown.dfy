/**
 The no-drums mix (mixdown.go) read through the WAV decoder (wav.go), which
 delivers whole frames.
 */
module Mixdown {
  import opened Prelude
  import opened WavHeader
  import opened Wrap32

  /** The sample of a source at position t, silence behind its end. */
  function At(c: seq<real>, t: nat): real { if t < |c| then c[t] else 0.0 }

  /** The sum of the first n sources at t. */
  function SumAt(cs: seq<seq<real>>, n: nat, t: nat): real
    requires n <= |cs|
  {
    if n == 0 then 0.0 else SumAt(cs, n - 1, t) + At(cs[n - 1], t)
  }

  // --- The decoder -----------------------------------------------------------------

  const BUFFER_FRAMES := 4096

  /** The samples of the whole frames among the first n. */
  function Whole(n: nat, channels: nat): nat { if channels == 0 then 0 else n / channels * channels }

  lemma WholeIsWhole(n: nat, ch: nat)
    requires ch >= 1
    ensures Whole(n, ch) % ch == 0 && Whole(n, ch) <= n < Whole(n, ch) + ch
    ensures n % ch == 0 ==> Whole(n, ch) == n
  {
    assert n == n / ch * ch + n % ch;
    ModUnique(n / ch * ch, ch, n / ch, 0);
  }

  lemma WholeAfter(n: nat, p: nat, ch: nat)
    requires ch >= 1 && p % ch == 0 && p <= n
    ensures p + Whole(n - p, ch) == Whole(n, ch)
  {
    var q, m := p / ch, n - p;
    assert p == q * ch && m == m / ch * ch + m % ch;
    assert n == (q + m / ch) * ch + m % ch;
    QuotientUnique(n, ch, q + m / ch, m % ch);
    assert (q + m / ch) * ch == q * ch + m / ch * ch;
  }

  lemma QuotientUnique(x: int, m: int, q: int, r: int)
    requires m > 0 && x == q * m + r && 0 <= r < m
    ensures x / m == q
  {
    ModUnique(x, m, q, r);
    assert x == x / m * m + x % m;
    assert (x / m - q) * m == 0;
    Multiple(x / m - q, m);
  }

  lemma WholeBelow(a: nat, n: nat, ch: nat)
    requires ch >= 1 && a % ch == 0 && a <= n
    ensures a <= Whole(n, ch)
  {
    WholeAfter(n, a, ch);
  }

  /** The least of what is asked for, what is left and what fits the buffer; frames all. */
  method Wanted(asked: nat, left: nat, ch: nat) returns (want: nat)
    requires ch >= 1 && asked > 0 && left > 0 && asked % ch == 0 && left % ch == 0
    ensures 0 < want <= asked && want <= left && want % ch == 0
  {
    want := asked;
    if want > left {
      want := left;
    }
    if want > BUFFER_FRAMES * ch {
      want := BUFFER_FRAMES * ch;
      ModUnique(want, ch, BUFFER_FRAMES, 0);
    }
  }

  lemma SumOfFrames(a: int, b: int, ch: int)
    requires ch >= 1 && a % ch == 0 && b % ch == 0
    ensures (a + b) % ch == 0 && (a - b) % ch == 0
  {
    assert a == a / ch * ch && b == b / ch * ch;
    assert a + b == (a / ch + b / ch) * ch && a - b == (a / ch - b / ch) * ch;
    ModUnique(a + b, ch, a / ch + b / ch, 0);
    ModUnique(a - b, ch, a / ch - b / ch, 0);
  }

  class Decoder {
    const data: seq<real>                                  // what the file really holds
    const declared: nat                                    // what its header says
    const channels: nat
    var remaining: nat
    var pos: nat

    /** What it delivers in all; a truncated file delivers the whole frames it has. */
    ghost const content: seq<real> := data[..Min(declared, Whole(|data|, channels))]

    ghost predicate Valid()
      reads this
    {
      && channels >= 1 && remaining % channels == 0 && pos % channels == 0
      && Whole(|data|, channels) <= |data| && content == data[..Min(declared, Whole(|data|, channels))] && pos <= |content|
      && (remaining == declared - pos || (remaining == 0 && pos == |content|))
    }

    /** Delivers the next frames, perhaps fewer than asked for; the end is told when none is left. */
    method ReadFrames(dst: array<real>, from: nat, to: nat) returns (k: nat, eof: bool)
      requires Valid() && from < to <= dst.Length && (to - from) % channels == 0
      modifies this, dst
      ensures Valid() && eof == (old(pos) == |content|) && k <= to - from && (k == 0 ==> eof) && k % channels == 0
      ensures pos == old(pos) + k
      ensures forall j :: 0 <= j < dst.Length ==>
                dst[j] == if from <= j < from + k then content[old(pos) + (j - from)] else old(dst[j])
    {
      if remaining == 0 {
        return 0, true;
      }
      var want := Wanted(to - from, remaining, channels);
      var n := Min(want, |data| - pos);
      k := Whole(n, channels);
      FramesRead(want, n, k);
      Decode(dst, from, k);
      Advance(want, n, k);
      eof := n < want && k == 0;
    }

    /** The file is shorter than its header says: what was read is the end. */
    method Advance(want: nat, n: nat, got: nat)
      requires Valid() && want <= remaining && got <= want && (pos + got) % channels == 0 && (remaining - got) % channels == 0
      requires if n < want then pos + got == |content| else got == want && pos + got <= |content|
      requires remaining == declared - pos
      modifies this
      ensures Valid() && pos == old(pos) + got
    {
      pos := pos + got;
      remaining := remaining - got;
      if n < want {
        remaining := 0;
      }
    }

    /** What one read returns is whole frames: all that were wanted, or the last ones there are. */
    lemma FramesRead(want: nat, n: nat, got: nat)
      requires Valid() && want % channels == 0 && 0 < want <= remaining && n == Min(want, |data| - pos) && got == Whole(n, channels)
      ensures got <= n && got % channels == 0 && (pos + got) % channels == 0 && (remaining - got) % channels == 0
      ensures if n < want then pos + got == |content| else got == want && pos + got <= |content|
    {
      WholeIsWhole(n, channels);
      SumOfFrames(pos, got, channels);
      SumOfFrames(remaining, got, channels);
      WholeIsWhole(|data|, channels);
      if n < want {
        WholeAfter(|data|, pos, channels);
      } else {
        SumOfFrames(pos, want, channels);
        WholeBelow(pos + want, |data|, channels);
      }
    }

    method Decode(dst: array<real>, from: nat, got: nat)
      requires from + got <= dst.Length && pos + got <= |data|
      modifies dst
      ensures forall j :: 0 <= j < dst.Length ==>
                dst[j] == if from <= j < from + got then data[pos + (j - from)] else old(dst[j])
    {
      for j := 0 to got
        invariant forall i :: 0 <= i < dst.Length ==>
                    dst[i] == if from <= i < from + j then data[pos + (i - from)] else old(dst[i])
      {
        dst[from + j] := data[pos + j];
      }
    }
  }

  // --- The loop ------------------------------------------------------------------------

  /** The source has delivered its first n samples; marked done, it has no more. */
  ghost predicate ReadTo(src: Decoder, n: nat, done: bool)
    reads src
  {
    src.channels >= 1 && src.Valid() && src.pos == Min(n, |src.content|) && (done ==> src.pos == |src.content|)
  }

  method Accumulate(acc: array<real>, buf: array<real>, from: nat, to: nat)
    requires acc != buf && from <= to <= acc.Length && to <= buf.Length
    modifies acc
    ensures forall j :: 0 <= j < acc.Length ==> acc[j] == if from <= j < to then old(acc[j]) + buf[j] else old(acc[j])
  {
    for j := from to to
      invariant forall i :: 0 <= i < acc.Length ==> acc[i] == if from <= i < j then old(acc[i]) + buf[i] else old(acc[i])
    {
      acc[j] := acc[j] + buf[j];
    }
  }

  /** Adds the next n samples of one source to the accumulator. */
  method AddSource(src: Decoder, acc: array<real>, buf: array<real>, n: nat, ghost base: nat) returns (eof: bool)
    requires acc != buf && n <= acc.Length && n <= buf.Length && ReadTo(src, base, false) && n % src.channels == 0
    modifies src, acc, buf
    ensures ReadTo(src, base + n, eof)
    ensures forall j :: 0 <= j < acc.Length ==> acc[j] == if j < n then old(acc[j]) + At(src.content, base + j) else old(acc[j])
  {
    var got := 0;
    eof := false;
    while got < n && !eof
      invariant got <= n && ReadTo(src, base + got, eof) && got % src.channels == 0
      invariant forall j :: 0 <= j < acc.Length ==>
                  acc[j] == if j < got then old(acc[j]) + At(src.content, base + j) else old(acc[j])
      decreases n - got, if eof then 0 else 1
    {
      ghost var start := src.pos;
      SumOfFrames(n, got, src.channels);
      var k, end := src.ReadFrames(buf, got, n);
      SumOfFrames(got, k, src.channels);
      Accumulate(acc, buf, got, got + k);
      assert forall j :: got <= j < got + k ==> buf[j] == At(src.content, base + j);
      got := got + k;
      eof := end;
    }
  }

  /** The turn of one source, skipped once it is done. */
  method MixOne(src: Decoder, acc: array<real>, buf: array<real>, done: bool, n: nat, ghost base: nat) returns (over: bool)
    requires acc != buf && n <= acc.Length && n <= buf.Length && ReadTo(src, base, done)
    requires n % src.channels == 0
    modifies src, acc, buf
    ensures ReadTo(src, base + n, over)
    ensures forall j :: 0 <= j < n ==> acc[j] == old(acc[j]) + At(src.content, base + j)
  {
    if done {
      return true;
    }
    over := AddSource(src, acc, buf, n, base);
  }

  method Clear(acc: array<real>, n: nat)
    requires n <= acc.Length
    modifies acc
    ensures forall k :: 0 <= k < n ==> acc[k] == 0.0
  {
    for j := 0 to n
      invariant forall k :: 0 <= k < j ==> acc[k] == 0.0
    {
      acc[j] := 0.0;
    }
  }

  ghost predicate Apart(srcs: seq<Decoder>) { forall i, j :: 0 <= i < j < |srcs| ==> srcs[i] != srcs[j] }

  /** The first i sources stand at base + n, the others at base. */
  ghost predicate ReadSoFar(srcs: seq<Decoder>, i: nat, base: nat, n: nat, done: seq<bool>)
    requires |srcs| == |done|
    reads srcs
  {
    forall k :: 0 <= k < |srcs| ==> ReadTo(srcs[k], if k < i then base + n else base, done[k])
  }

  ghost predicate Contents(srcs: seq<Decoder>, cs: seq<seq<real>>)
  {
    |cs| == |srcs| && forall i :: 0 <= i < |srcs| ==> cs[i] == srcs[i].content
  }

  /** The sums of the first k sources at n positions from base on. */
  function Sums(cs: seq<seq<real>>, k: nat, base: nat, n: nat): (s: seq<real>)
    requires k <= |cs|
    ensures |s| == n && forall j :: 0 <= j < n ==> s[j] == SumAt(cs, k, base + j)
  {
    seq(n, j requires 0 <= j < n => SumAt(cs, k, base + j))
  }

  function Rounded(s: seq<real>, f32: real -> real): (r: seq<real>)
    ensures |r| == |s| && forall j :: 0 <= j < |s| ==> r[j] == f32(s[j])
  {
    seq(|s|, j requires 0 <= j < |s| => f32(s[j]))
  }

  lemma NoSource(acc: seq<real>, cs: seq<seq<real>>, base: nat)
    requires forall j :: 0 <= j < |acc| ==> acc[j] == 0.0
    ensures acc == Sums(cs, 0, base, |acc|)
  {
  }

  lemma OneMoreSource(before: seq<real>, after: seq<real>, cs: seq<seq<real>>, k: nat, base: nat)
    requires k < |cs| && |before| == |after| && before == Sums(cs, k, base, |before|)
    requires forall j :: 0 <= j < |after| ==> after[j] == before[j] + At(cs[k], base + j)
    ensures after == Sums(cs, k + 1, base, |after|)
  {
  }

  lemma ChunkByChunk(cs: seq<seq<real>>, base: nat, n: nat, f32: real -> real)
    ensures Rounded(Sums(cs, |cs|, 0, base), f32) + Rounded(Sums(cs, |cs|, base, n), f32) == Rounded(Sums(cs, |cs|, 0, base + n), f32)
  {
    var a, b := Sums(cs, |cs|, 0, base), Sums(cs, |cs|, base, n);
    assert Sums(cs, |cs|, 0, base + n) == a + b by {
      forall j | 0 <= j < base + n
        ensures SumAt(cs, |cs|, 0 + j) == (a + b)[j]
      {
        if j >= base {
          assert b[j - base] == SumAt(cs, |cs|, base + (j - base));
        }
      }
    }
    assert Rounded(a + b, f32) == Rounded(a, f32) + Rounded(b, f32);
  }

  /** n samples are whole frames of every source. */
  predicate WholeFor(srcs: seq<Decoder>, n: nat)
  {
    forall i :: 0 <= i < |srcs| ==> srcs[i].channels >= 1 && n % srcs[i].channels == 0
  }

  /** One chunk of n samples from position base on. */
  method MixChunk(srcs: seq<Decoder>, acc: array<real>, buf: array<real>, done: seq<bool>, n: nat,
                  ghost base: nat, ghost cs: seq<seq<real>>) returns (over: seq<bool>)
    requires Apart(srcs) && Contents(srcs, cs) && |srcs| == |done| && acc != buf && n <= acc.Length && n <= buf.Length
    requires ReadSoFar(srcs, 0, base, n, done) && WholeFor(srcs, n)
    modifies srcs, acc, buf
    ensures |over| == |srcs| && ReadSoFar(srcs, |srcs|, base, n, over)
    ensures acc[..n] == Sums(cs, |cs|, base, n)
  {
    Clear(acc, n);
    NoSource(acc[..n], cs, base);
    over := done;
    for i := 0 to |srcs|
      invariant |over| == |srcs| && ReadSoFar(srcs, i, base, n, over)
      invariant acc[..n] == Sums(cs, i, base, n)
    {
      over := MixNext(srcs, i, acc, buf, over, n, base, cs);
    }
  }

  /** The turn of source i. */
  method MixNext(srcs: seq<Decoder>, i: nat, acc: array<real>, buf: array<real>, done: seq<bool>, n: nat,
                 ghost base: nat, ghost cs: seq<seq<real>>) returns (over: seq<bool>)
    requires Apart(srcs) && Contents(srcs, cs) && |srcs| == |done| && acc != buf && n <= acc.Length && n <= buf.Length
    requires i < |srcs| && srcs[i].channels >= 1 && ReadSoFar(srcs, i, base, n, done) && n % srcs[i].channels == 0
    requires acc[..n] == Sums(cs, i, base, n)
    modifies srcs[i], acc, buf
    ensures |over| == |srcs| && ReadSoFar(srcs, i + 1, base, n, over)
    ensures acc[..n] == Sums(cs, i + 1, base, n)
  {
    ghost var before := acc[..n];
    assert ReadTo(srcs[i], base, done[i]);
    var d := MixOne(srcs[i], acc, buf, done[i], n, base);
    OneMoreSource(before, acc[..n], cs, i, base);
    over := done[i := d];
  }

  /** The output's samples are the sums of all sources, each followed by silence up to the length of
      the output; f32 is the rounding to single precision. */
  method SumWavs(srcs: seq<Decoder>, ghost cs: seq<seq<real>>, frames: nat, ch: nat, mixChunk: nat, f32: real -> real) returns (out: seq<real>)
    requires Apart(srcs) && Contents(srcs, cs) && mixChunk > 0 && ch > 0
    requires forall i :: 0 <= i < |srcs| ==> srcs[i].Valid() && srcs[i].pos == 0 && srcs[i].channels == ch
    modifies srcs
    ensures out == Rounded(Sums(cs, |cs|, 0, frames * ch), f32)
  {
    var acc, buf := new real[mixChunk * ch], new real[mixChunk * ch];
    var done := seq(|srcs|, _ => false);
    var written := 0;
    out := [];
    while written < frames
      invariant written <= frames && |out| == written * ch && |done| == |srcs| && ReadSoFar(srcs, 0, |out|, 0, done)
      invariant out == Rounded(Sums(cs, |cs|, 0, |out|), f32)
      decreases frames - written
    {
      var n := Min(mixChunk, frames - written);
      Products(written, n, mixChunk, ch);
      ChunkByChunk(cs, |out|, n * ch, f32);
      done := MixChunk(srcs, acc, buf, done, n * ch, |out|, cs);
      out := out + Rounded(acc[..n * ch], f32);
      written := written + n;
    }
  }

  lemma Products(a: nat, n: nat, m: nat, ch: nat)
    requires ch > 0 && n <= m
    ensures (a + n) * ch == a * ch + n * ch && 0 <= n * ch <= m * ch && (n * ch) % ch == 0
  {
    ModUnique(n * ch, ch, n, 0);
  }

  /** Sample by sample. */
  lemma SumsArePointwise(cs: seq<seq<real>>, total: nat, f32: real -> real, t: nat)
    requires t < total
    ensures Rounded(Sums(cs, |cs|, 0, total), f32)[t] == f32(SumAt(cs, |cs|, t))
  {
    assert Sums(cs, |cs|, 0, total)[t] == SumAt(cs, |cs|, 0 + t);
  }

  // --- What is mixed ----------------------------------------------------------------------

  datatype Input = Input(rate: nat, channels: nat, frames: nat)

  predicate Agree(inputs: seq<Input>)
  {
    forall i :: 0 <= i < |inputs| ==> inputs[i].rate == inputs[0].rate && inputs[i].channels == inputs[0].channels
  }

  /** The length of the longest input. */
  ghost predicate Longest(inputs: seq<Input>, frames: nat)
  {
    && (forall i :: 0 <= i < |inputs| ==> inputs[i].frames <= frames)
    && (frames == 0 || exists i :: 0 <= i < |inputs| && inputs[i].frames == frames)
  }

  /** Opening the inputs: None when formats differ or the mix would not fit a WAV file. */
  method OpenInputs(inputs: seq<Input>) returns (mix: Option<Input>)
    ensures mix.Some? ==> Agree(inputs) && Longest(inputs, mix.value.frames) && Guard(mix.value.channels, mix.value.frames)
    ensures mix.Some? && inputs != [] ==> mix.value.rate == inputs[0].rate && mix.value.channels == inputs[0].channels
    ensures mix.None? ==> !Agree(inputs) || (inputs != [] && exists n :: Longest(inputs, n) && !Guard(inputs[0].channels, n))
  {
    var rate, channels, frames := 0, 0, 0;
    for i := 0 to |inputs|
      invariant i > 0 ==> rate == inputs[0].rate && channels == inputs[0].channels
      invariant i == 0 ==> channels == 0
      invariant Agree(inputs[..i]) && Longest(inputs[..i], frames)
    {
      if i == 0 {
        rate, channels := inputs[0].rate, inputs[0].channels;
      } else if inputs[i].rate != rate || inputs[i].channels != channels {
        return None;
      }
      if inputs[i].frames > frames {
        frames := inputs[i].frames;
        assert inputs[..i + 1][i].frames == frames;
      } else if frames != 0 {
        var k :| 0 <= k < i && inputs[..i][k].frames == frames;
        assert inputs[..i + 1][k].frames == frames;
      }
    }
    assert inputs[..|inputs|] == inputs;
    if !Guard(channels, frames) {
      return None;
    }
    mix := Some(Input(rate, channels, frames));
  }
}
