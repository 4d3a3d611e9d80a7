/** The header the mix is written with (mixdown.go) and how it is read back (wav.go). */
module WavHeader {
  import opened Prelude
  import opened Wrap32

  const U16 := 0x1_0000
  const U32 := 0x1_0000_0000

  /** Little-endian words; Go's conversions drop the high bits. */
  function Le(x: int, n: nat): (b: seq<int>)
    ensures |b| == n && forall i :: 0 <= i < n ==> 0 <= b[i] < 256
    decreases n
  {
    if n == 0 then [] else [x % 256] + Le(x / 256, n - 1)
  }

  function Le16(x: int): (b: seq<int>)
    ensures |b| == 2 && forall i :: 0 <= i < 2 ==> 0 <= b[i] < 256
  {
    Le(x, 2)
  }

  function Le32(x: int): (b: seq<int>)
    ensures |b| == 4 && forall i :: 0 <= i < 4 ==> 0 <= b[i] < 256
  {
    Le(x, 4)
  }

  function U16At(b: seq<int>, i: nat): int
    requires i + 2 <= |b|
  {
    b[i] + 256 * b[i + 1]
  }

  function U32At(b: seq<int>, i: nat): int
    requires i + 4 <= |b|
  {
    b[i] + 256 * b[i + 1] + 65536 * b[i + 2] + 16777216 * b[i + 3]
  }

  lemma Le16Reads(x: int)
    requires 0 <= x < U16
    ensures U16At(Le16(x), 0) == x
  {
    var a := x / 256;
    assert Le(x, 2) == [x % 256] + Le(a, 1);
    assert Le(a, 1) == [a % 256] + Le(a / 256, 0);
  }

  lemma Le32Reads(x: int)
    requires 0 <= x < U32
    ensures U32At(Le32(x), 0) == x
  {
    var a := x / 256;
    var b := a / 256;
    var c := b / 256;
    assert Le(x, 4) == [x % 256] + Le(a, 3);
    assert Le(a, 3) == [a % 256] + Le(b, 2);
    assert Le(b, 2) == [b % 256] + Le(c, 1);
    assert Le(c, 1) == [c % 256] + Le(c / 256, 0);
  }

  const RIFF: seq<int> := [82, 73, 70, 70]
  const WAVE: seq<int> := [87, 65, 86, 69]
  const FMT: seq<int> := [102, 109, 116, 32]
  const FACT: seq<int> := [102, 97, 99, 116]
  const DATA: seq<int> := [100, 97, 116, 97]

  // --- Writing ------------------------------------------------------------------------

  function FmtBody(rate: nat, channels: nat, byteRate: int, align: int): (b: seq<int>)
    ensures |b| == 18 && IsBytes(b)
  {
    Le16(3) + Le16(channels) + Le32(rate) + Le32(byteRate) + Le16(align) + Le16(32) + Le16(0)
  }

  function Chunk(id: seq<int>, body: seq<int>): (b: seq<int>)
    ensures |b| == |id| + 4 + |body|
  {
    id + Le32(|body|) + body
  }

  /** The layout, word by word. */
  function Header(riff: seq<int>, fmt: seq<int>, fact: seq<int>, length: seq<int>): seq<int>
  {
    RIFF + riff + WAVE + fmt + fact + DATA + length
  }

  function HeaderFor(fmt: seq<int>, frames: int, dataLen: int): seq<int>
  {
    Header(Le32((4 + (8 + 18) + (8 + 4) + (8 + dataLen)) % U32), Chunk(FMT, fmt), Chunk(FACT, Le32(frames)), Le32(dataLen))
  }

  // --- Reading ---------------------------------------------------------------------------

  datatype Wav = Wav(channels: int, rate: int, bits: int, float: bool, frames: int, dataAt: nat)

  datatype Format = Format(channels: int, rate: int, bits: int, float: bool)

  function ParseFmt(body: seq<int>): Option<Format>
    requires |body| >= 16
  {
    var tag, bits := U16At(body, 0), U16At(body, 14);
    if tag == 0xFFFE && |body| < 40 then None
    else
      var sub := if tag == 0xFFFE then U16At(body, 24) else tag;
      if !(sub == 1 && (bits == 16 || bits == 24 || bits == 32)) && !(sub == 3 && bits == 32) then None
      else if U16At(body, 2) == 0 then None
      else Some(Format(U16At(body, 2), U32At(body, 4), bits, sub == 3))
  }

  datatype Step = Refused | Next(pos: nat, format: Option<Format>) | Found(wav: Wav)

  function FrameCount(dataLen: nat, channels: int, bits: int): int
  {
    var frameSize := channels * (bits / 8);
    if frameSize > 0 then dataLen / frameSize else 0
  }

  /** What one chunk tells the reader; `format` is what an earlier fmt chunk said. */
  function ReadChunk(id: seq<int>, size: nat, at: nat, b: seq<int>, format: Option<Format>): Step
  {
    if id == FMT then
      if size < 16 || at + size > |b| || ParseFmt(b[at..at + size]).None? then Refused
      else Next(at + size + size % 2, ParseFmt(b[at..at + size]))
    else if id == DATA then
      if format.None? then Refused
      else
        var f := format.value;
        var dataLen := if size == 0 || size == 0xFFFF_FFFF then Max(0, |b| - at) else size;
        Found(Wav(f.channels, f.rate, f.bits, f.float, FrameCount(dataLen, f.channels, f.bits), at))
    else Next(at + size + size % 2, format)
  }

  ghost function ParseChunks(b: seq<int>, pos: nat, format: Option<Format>): Option<Wav>
    requires IsBytes(b)
    decreases |b| - pos
  {
    if pos + 8 > |b| then None
    else
      match ReadChunk(b[pos..pos + 4], U32At(b, pos + 4), pos + 8, b, format)
      case Refused => None
      case Found(wav) => Some(wav)
      case Next(next, f) => ParseChunks(b, next, f)
  }

  ghost function OpenWav(b: seq<int>): Option<Wav>
    requires IsBytes(b)
  {
    if |b| < 12 || b[..4] != RIFF || b[8..12] != WAVE then None else ParseChunks(b, 12, None)
  }

  // --- The guard ----------------------------------------------------------------------------

  /** What sumWAVs checks before it writes anything. */
  predicate Guard(channels: nat, frames: nat) { frames * channels * 4 <= 0xFFFF_FFFF - 64 }

  /** The header of a mix, with Go's 32- and 16-bit arithmetic; under the guard its lengths have
      not wrapped, while the byte rate and the block size may have. */
  method FloatHeader(rate: nat, channels: nat, frames: nat) returns (h: seq<int>, byteRate: int, align: int)
    ensures byteRate == rate * (channels * 4) % U32 && align == channels * 4 % U16
    ensures h == HeaderFor(FmtBody(rate, channels, byteRate, align), frames % U32, (frames % U32) * (channels * 4) % U32)
    ensures Guard(channels, frames) && channels >= 1 ==> frames % U32 == frames
    ensures Guard(channels, frames) && channels >= 1 ==> (frames % U32) * (channels * 4) % U32 == frames * channels * 4 < U32 - 64
  {
    if Guard(channels, frames) && channels >= 1 {
      GuardedLength(channels, frames);
    }
    var blockAlign := channels * 4;
    byteRate, align := rate * blockAlign % U32, blockAlign % U16;
    var dataLen := (frames % U32) * blockAlign % U32;
    h := Bytes(rate, channels, byteRate, align, frames % U32, dataLen);
  }

  /** The bytes, appended in order. */
  method Bytes(rate: nat, channels: nat, byteRate: int, align: int, frames: nat, dataLen: nat) returns (h: seq<int>)
    ensures h == HeaderFor(FmtBody(rate, channels, byteRate, align), frames, dataLen)
  {
    h := RIFF + Le32((4 + (8 + 18) + (8 + 4) + (8 + dataLen)) % U32) + WAVE;
    h := h + Chunk(FMT, FmtBody(rate, channels, byteRate, align));
    h := h + Chunk(FACT, Le32(frames));
    h := h + DATA + Le32(dataLen);
  }

  lemma GuardedLength(channels: nat, frames: nat)
    requires Guard(channels, frames) && channels >= 1
    ensures frames < U32 && frames % U32 == frames
    ensures frames * (channels * 4) == frames * channels * 4 < U32 - 64
    ensures (frames * (channels * 4)) % U32 == frames * channels * 4
  {
    assert frames * channels * 4 >= frames * 4 by {
      assert frames * channels >= frames;
    }
    assert frames * (channels * 4) == frames * channels * 4;
  }

  // --- Bytes in the middle ----------------------------------------------------------------------

  lemma WordFrom(b: seq<int>, i: nat, x: int)
    requires i + 4 <= |b| && b[i..i + 4] == Le32(x) && 0 <= x < U32
    ensures U32At(b, i) == x
  {
    Le32Reads(x);
    SameWord(b, i, Le32(x));
  }

  lemma SameWord(b: seq<int>, i: nat, w: seq<int>)
    requires i + 4 <= |b| && b[i..i + 4] == w
    ensures U32At(b, i) == U32At(w, 0)
  {
    assert w[0] == b[i] && w[1] == b[i + 1] && w[2] == b[i + 2] && w[3] == b[i + 3];
  }

  lemma HeaderWords(riff: seq<int>, fmt: seq<int>, fact: seq<int>, length: seq<int>)
    requires |riff| == 4 && |fmt| == 26 && |fact| == 12 && |length| == 4
    ensures var h := Header(riff, fmt, fact, length);
            |h| == 58 && h[4..8] == riff && h[46..50] == fact[8..12] && h[54..58] == length
  {
  }

  /** The header is 58 bytes, its RIFF size is the file length less 8, and its lengths are the true
      ones. */
  lemma HeaderIsConsistent(fmt: seq<int>, frames: nat, data: seq<int>)
    requires |fmt| == 18 && |data| < U32 - 64 && frames < U32
    ensures var h := HeaderFor(fmt, frames, |data|);
            |h| == 58 && U32At(h, 4) + 8 == |h + data| && U32At(h, 46) == frames && U32At(h, 54) == |data|
  {
    LengthWords(50 + |data|, Chunk(FMT, fmt), frames, |data|);
    HeaderIs(fmt, frames, |data|);
  }

  lemma HeaderIs(fmt: seq<int>, frames: nat, n: nat)
    requires n < U32 - 64
    ensures HeaderFor(fmt, frames, n) == Header(Le32(50 + n), Chunk(FMT, fmt), Chunk(FACT, Le32(frames)), Le32(n))
  {
    NoWrap(50 + n);
  }

  lemma NoWrap(x: int)
    requires 0 <= x < U32
    ensures x % U32 == x
  {
  }

  lemma LengthWords(riff: nat, fmt: seq<int>, frames: nat, n: nat)
    requires riff < U32 && |fmt| == 26 && frames < U32 && n < U32
    ensures var h := Header(Le32(riff), fmt, Chunk(FACT, Le32(frames)), Le32(n));
            |h| == 58 && U32At(h, 4) == riff && U32At(h, 46) == frames && U32At(h, 54) == n
  {
    var a, b, c := Le32(riff), Le32(frames), Le32(n);
    Le32Reads(riff);
    Le32Reads(frames);
    Le32Reads(n);
    WordsOf(a, fmt, b, c);
  }

  lemma WordsOf(a: seq<int>, fmt: seq<int>, b: seq<int>, c: seq<int>)
    requires |a| == 4 && |fmt| == 26 && |b| == 4 && |c| == 4
    ensures var h := Header(a, fmt, Chunk(FACT, b), c);
            |h| == 58 && U32At(h, 4) == U32At(a, 0) && U32At(h, 46) == U32At(b, 0) && U32At(h, 54) == U32At(c, 0)
  {
    var h, fact := Header(a, fmt, Chunk(FACT, b), c), Chunk(FACT, b);
    HeaderWords(a, fmt, fact, c);
    assert fact[8..12] == b;
    SameWord(h, 4, a);
    SameWord(h, 46, b);
    SameWord(h, 54, c);
  }

  lemma FmtReads(rate: nat, channels: nat, byteRate: int, align: int)
    requires rate < U32 && 1 <= channels < U16
    ensures ParseFmt(FmtBody(rate, channels, byteRate, align)) == Some(Format(channels, rate, 32, true))
  {
    Le16Reads(channels);
    Le32Reads(rate);
    var b := FmtBody(rate, channels, byteRate, align);
    assert b[2..4] == Le16(channels) && b[4..8] == Le32(rate) && b[14..16] == Le16(32) && b[0..2] == Le16(3);
  }

  /** A chunk in the middle of a file. */
  lemma ChunkAt(pre: seq<int>, id: seq<int>, body: seq<int>, post: seq<int>)
    requires |id| == 4 && |body| < U32
    ensures var b, at := pre + Chunk(id, body) + post, |pre|;
            b[at..at + 4] == id && U32At(b, at + 4) == |body| && b[at + 8..at + 8 + |body|] == body
  {
    MiddleOf(pre, id, Le32(|body|), body, post);
    WordFrom(pre + Chunk(id, body) + post, |pre| + 4, |body|);
  }

  lemma MiddleOf(pre: seq<int>, id: seq<int>, w: seq<int>, body: seq<int>, post: seq<int>)
    requires |id| == 4 && |w| == 4
    ensures var b, at := pre + (id + w + body) + post, |pre|;
            b[at..at + 4] == id && b[at + 4..at + 8] == w && b[at + 8..at + 8 + |body|] == body
  {
  }

  /** One step of the reader over a chunk in the middle of a file. */
  lemma ParseOne(pre: seq<int>, id: seq<int>, body: seq<int>, post: seq<int>, format: Option<Format>)
    requires IsBytes(pre + Chunk(id, body) + post) && |id| == 4 && |body| < U32
    ensures var b := pre + Chunk(id, body) + post;
            && ReadChunk(id, |body|, |pre| + 8, b, format)
            == ReadChunk(b[|pre|..|pre| + 4], U32At(b, |pre| + 4), |pre| + 8, b, format)
            && b[|pre| + 8..|pre| + 8 + |body|] == body
            && ParseChunks(b, |pre|, format) ==
               match ReadChunk(id, |body|, |pre| + 8, b, format)
               case Refused => None
               case Found(wav) => Some(wav)
               case Next(next, f) => ParseChunks(b, next, f)
  {
    ChunkAt(pre, id, body, post);
  }

  lemma FrameCount32(frames: nat, channels: nat, n: nat)
    requires channels >= 1 && n == frames * channels * 4
    ensures FrameCount(n, channels, 32) == frames
  {
    var size := channels * 4;
    assert n == frames * size;
    WholeFrames(frames, size);
  }

  lemma WholeFrames(frames: nat, size: int)
    requires size > 0
    ensures frames * size / size == frames
  {
    var x := frames * size;
    var q := x / size;
    assert x == q * size + x % size;
    assert (frames - q) * size == x % size;
    Multiple(frames - q, size);
  }

  lemma Ids()
    ensures FACT != FMT && FACT != DATA && DATA != FMT
  {
    assert FACT[1] != FMT[1] && FACT[0] != DATA[0] && DATA[0] != FMT[0];
  }

  /** A file of a form chunk, a skipped chunk and a data chunk is read like this. */
  lemma ThreeChunks(front: seq<int>, fmt: seq<int>, fact: seq<int>, data: seq<int>, f: Format)
    requires |front| == 12 && front[..4] == RIFF && front[8..12] == WAVE && |fmt| == 18 && |fact| == 4 && ParseFmt(fmt) == Some(f)
    requires |data| < U32 - 1
    requires IsBytes(front + Chunk(FMT, fmt) + Chunk(FACT, fact) + Chunk(DATA, data))
    ensures OpenWav(front + Chunk(FMT, fmt) + Chunk(FACT, fact) + Chunk(DATA, data))
         == Some(Wav(f.channels, f.rate, f.bits, f.float, FrameCount(|data|, f.channels, f.bits), 58))
  {
    var one := Chunk(FACT, fact) + Chunk(DATA, data);
    var two := front + Chunk(FMT, fmt);
    var three := two + Chunk(FACT, fact);
    var b := three + Chunk(DATA, data);
    Ids();
    assert b == front + Chunk(FMT, fmt) + one;
    assert b == two + Chunk(FACT, fact) + Chunk(DATA, data);
    assert b == three + Chunk(DATA, data) + [];
    assert b[..4] == RIFF && b[8..12] == WAVE;
    ParseOne(front, FMT, fmt, one, None);
    ParseOne(two, FACT, fact, Chunk(DATA, data), Some(f));
    ParseOne(three, DATA, data, [], Some(f));
  }

  /** Reading a mix back gives its rate, channels and frames, the samples starting at byte 58,
      whatever the byte rate and the block size have become. */
  lemma HeaderRoundTrip(rate: nat, channels: nat, byteRate: int, align: int, frames: nat, data: seq<int>)
    requires Guard(channels, frames) && 1 <= channels < U16 && rate < U32 && |data| == frames * channels * 4
    requires IsBytes(data)
    ensures var b := HeaderFor(FmtBody(rate, channels, byteRate, align), frames, |data|) + data;
            IsBytes(b) && OpenWav(b) == Some(Wav(channels, rate, 32, true, frames, 58))
  {
    GuardedLength(channels, frames);
    FmtReads(rate, channels, byteRate, align);
    FrameCount32(frames, channels, |data|);
    HeaderForRoundTrip(FmtBody(rate, channels, byteRate, align), frames, data, Format(channels, rate, 32, true));
  }

  lemma HeaderForRoundTrip(fmt: seq<int>, frames: nat, data: seq<int>, f: Format)
    requires |fmt| == 18 && ParseFmt(fmt) == Some(f) && frames < U32 && |data| < U32 - 64
    requires IsBytes(fmt) && IsBytes(data)
    ensures IsBytes(HeaderFor(fmt, frames, |data|) + data)
    ensures OpenWav(HeaderFor(fmt, frames, |data|) + data)
         == Some(Wav(f.channels, f.rate, f.bits, f.float, FrameCount(|data|, f.channels, f.bits), 58))
  {
    MixIs(fmt, frames, data);
    MixIsBytes(fmt, frames, data);
    ThreeChunks(RIFF + Le32(50 + |data|) + WAVE, fmt, Le32(frames), data, f);
  }

  /** The file of a mix: twelve bytes and three chunks. */
  function Mix(fmt: seq<int>, frames: nat, data: seq<int>): seq<int>
  {
    RIFF + Le32(50 + |data|) + WAVE + Chunk(FMT, fmt) + Chunk(FACT, Le32(frames)) + Chunk(DATA, data)
  }

  lemma MixIsBytes(fmt: seq<int>, frames: nat, data: seq<int>)
    requires IsBytes(fmt) && IsBytes(data)
    ensures IsBytes(Mix(fmt, frames, data))
  {
    JoinBytes(RIFF, Le32(50 + |data|), WAVE);
    JoinBytes(FMT, Le32(|fmt|), fmt);
    JoinBytes(FACT, Le32(4), Le32(frames));
    JoinBytes(DATA, Le32(|data|), data);
    JoinBytes(RIFF + Le32(50 + |data|) + WAVE, Chunk(FMT, fmt), Chunk(FACT, Le32(frames)));
    JoinBytes(RIFF + Le32(50 + |data|) + WAVE + Chunk(FMT, fmt) + Chunk(FACT, Le32(frames)), Chunk(DATA, data), []);
  }

  lemma JoinBytes(a: seq<int>, b: seq<int>, c: seq<int>)
    requires IsBytes(a) && IsBytes(b) && IsBytes(c)
    ensures IsBytes(a + b + c)
  {
  }

  lemma MixIs(fmt: seq<int>, frames: nat, data: seq<int>)
    requires |data| < U32 - 64
    ensures HeaderFor(fmt, frames, |data|) + data == Mix(fmt, frames, data)
  {
    HeaderIs(fmt, frames, |data|);
    MixLayout(Le32(50 + |data|), Chunk(FMT, fmt), Chunk(FACT, Le32(frames)), Le32(|data|), data);
  }

  lemma MixLayout(riff: seq<int>, fmt: seq<int>, fact: seq<int>, length: seq<int>, data: seq<int>)
    ensures Header(riff, fmt, fact, length) + data == RIFF + riff + WAVE + fmt + fact + (DATA + length + data)
  {
  }

  /** The two derived fields of the header, which no reader here needs, are right only for moderate
      formats. */
  lemma DerivedFields(rate: nat, channels: nat, product: nat, frames: nat, n: nat)
    requires product == rate * (channels * 4) && n < U32 - 64
    ensures var h := HeaderFor(FmtBody(rate, channels, product % U32, channels * 4 % U16), frames, n);
            && |h| == 58
            && (U32At(h, 28) == product <==> product < U32)
            && (U16At(h, 32) == channels * 4 <==> channels < 0x4000)
  {
    FieldsWrap(rate, channels, product, channels * 4, frames, n);
  }

  lemma FieldsWrap(rate: nat, channels: nat, x: nat, y: nat, frames: nat, n: nat)
    requires n < U32 - 64
    ensures var h := HeaderFor(FmtBody(rate, channels, x % U32, y % U16), frames, n);
            |h| == 58 && (U32At(h, 28) == x <==> x < U32) && (U16At(h, 32) == y <==> y < U16)
  {
    FieldsRead(rate, channels, x % U32, y % U16, frames, n);
    WrapsOrNot(x, U32);
    WrapsOrNot(y, U16);
  }

  lemma FieldsRead(rate: nat, channels: nat, byteRate: nat, align: nat, frames: nat, n: nat)
    requires n < U32 - 64 && byteRate < U32 && align < U16
    ensures var h := HeaderFor(FmtBody(rate, channels, byteRate, align), frames, n);
            |h| == 58 && U32At(h, 28) == byteRate && U16At(h, 32) == align
  {
    HeaderIs(FmtBody(rate, channels, byteRate, align), frames, n);
    FmtAt(Le32(50 + n), FmtBody(rate, channels, byteRate, align), Chunk(FACT, Le32(frames)), Le32(n));
    FmtWords(rate, channels, byteRate, align);
  }

  lemma FmtWords(rate: nat, channels: nat, byteRate: nat, align: nat)
    requires byteRate < U32 && align < U16
    ensures U32At(FmtBody(rate, channels, byteRate, align), 8) == byteRate
    ensures U16At(FmtBody(rate, channels, byteRate, align), 12) == align
  {
    Middle(Le16(3) + Le16(channels) + Le32(rate), Le32(byteRate), Le16(align), Le16(32) + Le16(0));
    Le32Reads(byteRate);
    Le16Reads(align);
  }

  lemma Middle(before: seq<int>, word: seq<int>, half: seq<int>, after: seq<int>)
    requires |before| == 8 && |word| == 4 && |half| == 2
    ensures var b := before + word + half + after; U32At(b, 8) == U32At(word, 0) && U16At(b, 12) == U16At(half, 0)
  {
  }

  lemma FmtAt(riff: seq<int>, fmt: seq<int>, fact: seq<int>, length: seq<int>)
    requires |riff| == 4 && |fmt| == 18 && |fact| == 12 && |length| == 4
    ensures var h := Header(riff, Chunk(FMT, fmt), fact, length);
            |h| == 58 && U32At(h, 28) == U32At(fmt, 8) && U16At(h, 32) == U16At(fmt, 12)
  {
    var h := Header(riff, Chunk(FMT, fmt), fact, length);
    assert h[20..38] == fmt;
    assert forall k :: 0 <= k < 18 ==> h[20 + k] == h[20..38][k];
  }

  lemma WrapsOrNot(x: nat, m: nat)
    requires m > 0
    ensures x % m == x <==> x < m
  {
  }

  // --- Exactness -----------------------------------------------------------------------------------

  /** Single precision holds an integer, in steps of a 24-bit sample, exactly when some power of two
      divides it down to a significand of 24 bits. */
  ghost predicate Single(x: int) { exists e: nat :: SingleWith(x, e) }

  predicate SingleWith(x: int, e: nat) { x % Pow2(e) == 0 && -0x100_0000 <= x / Pow2(e) <= 0x100_0000 }

  predicate Sample24(x: int) { -0x80_0000 <= x < 0x80_0000 }

  /** Sums of two 24-bit stems are stored exactly, but of three they need not be: mixdown.go's comment
      promises more than a float holds. */
  lemma TwoStemsAreExact(a: int, b: int)
    requires Sample24(a) && Sample24(b)
    ensures Single(a + b)
  {
    assert SingleWith(a + b, 0);
  }

  lemma ThreeStemsNeedNotBe()
    ensures Sample24(0x7f_ffff) && Sample24(3) && !Single(0x7f_ffff + 0x7f_ffff + 3)
  {
    var x := 0x7f_ffff + 0x7f_ffff + 3;
    forall e: nat
      ensures !SingleWith(x, e)
    {
      if e > 0 && x % Pow2(e) == 0 {
        EvenQuotient(x, Pow2(e - 1));
      }
    }
  }

  lemma SumOfThree(a: int, b: int, c: int)
    ensures Sum([a, b, c]) == a + b + c
  {
    assert [a, b, c][..2] == [a, b] && [a, b][..1] == [a] && [a][..0] == [];
    assert Sum([a]) == a;
    assert Sum([a, b]) == a + b;
  }

  function Sum(xs: seq<int>): int { if xs == [] then 0 else Sum(xs[..|xs| - 1]) + xs[|xs| - 1] }

  predicate Samples(xs: seq<int>) { forall i :: 0 <= i < |xs| ==> Sample24(xs[i]) }

  lemma {:induction false} SilenceAddsNothing(xs: seq<int>, n: nat)
    ensures Sum(xs + seq(n, _ => 0)) == Sum(xs)
  {
    var more := xs + seq(n, _ => 0);
    if n == 0 {
      assert more == xs;
    } else {
      assert more[..|more| - 1] == xs + seq(n - 1, _ => 0);
      SilenceAddsNothing(xs, n - 1);
    }
  }

  /** The mix of n 24-bit stems is always stored exactly if and only if there are at most two. */
  lemma MixIsExactExactlyUpToTwo(n: nat)
    ensures (forall xs :: |xs| == n && Samples(xs) ==> Single(Sum(xs))) <==> n <= 2
  {
    if n <= 2 {
      forall xs | |xs| == n && Samples(xs)
        ensures Single(Sum(xs))
      {
        UpToTwo(xs);
      }
    } else {
      var loud := [0x7f_ffff, 0x7f_ffff, 3];
      var xs := loud + seq(n - 3, _ => 0);
      SilenceAddsNothing(loud, n - 3);
      SumOfThree(0x7f_ffff, 0x7f_ffff, 3);
      ThreeStemsNeedNotBe();
      assert |xs| == n && Samples(xs) && !Single(Sum(xs));
    }
  }

  lemma UpToTwo(xs: seq<int>)
    requires |xs| <= 2 && Samples(xs)
    ensures Single(Sum(xs))
  {
    if xs == [] {
      TwoStemsAreExact(0, 0);
    } else if |xs| == 1 {
      assert xs[..0] == [];
      TwoStemsAreExact(xs[0], 0);
    } else {
      assert xs[..1][..0] == [] && xs[..1][0] == xs[0];
      TwoStemsAreExact(xs[0], xs[1]);
    }
  }

  lemma EvenQuotient(x: int, p: int)
    requires p > 0 && x % (2 * p) == 0
    ensures x % 2 == 0
  {
    var q := x / (2 * p);
    assert x == q * (2 * p);
    assert x == 2 * (q * p);
  }
}
