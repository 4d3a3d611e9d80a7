/** Mapping the linear stream of a playback onto the song (chunk-scheduler.ts). */
module PlayPlan {
  import opened Prelude
  import opened Wrap32

  /** Half-open [start, end), in frames. */
  datatype LoopRange = LoopRange(start: int, end: int)

  datatype Chunk = Chunk(streamStart: int, songStart: int, frames: int)

  const MIN_LOOP_FRAMES := 1024

  /** Math.max(0, Math.min(Math.floor(x), total)); None is NaN. */
  function Clamped(x: Num, total: int): Option<int>
  {
    match x
    case NaN => None
    case NegInf => Some(Max(0, Min(-1, total)))
    case PosInf => Some(Max(0, total))
    case Fin(r) => Some(Max(0, Min(r.Floor, total)))
  }

  function ValidateLoop(loop: Option<(Num, Num)>, total: int, minFrames: int): Option<LoopRange>
  {
    if loop.None? then None
    else
      var start, end := Clamped(loop.value.0, total), Clamped(loop.value.1, total);
      if start.None? || end.None? then None
      else if end.value - start.value < minFrames then None
      else Some(LoopRange(start.value, end.value))
  }

  datatype Plan = Plan(
    startFrame: int, totalFrames: int, loop: Option<LoopRange>, prefixFrames: int, loopFrames: int,
    streamLength: Option<int>)                             // None is Infinity
  {
    /** The song frame of a stream frame. */
    function SongFrameAt(streamFrame: int): int
    {
      var s := Max(0, streamFrame);
      if s < prefixFrames then startFrame + s
      else if loop.Some? && loopFrames > 0 then loop.value.start + (s - prefixFrames) % loopFrames
      else totalFrames
    }

    /** The next contiguous piece to fetch; None is the end of the stream. */
    function NextChunk(streamPos: int, maxFrames: int): Option<Chunk>
      requires maxFrames > 0
    {
      if streamLength.Some? && streamPos >= streamLength.value then None
      else if streamPos < prefixFrames then
        Some(Chunk(streamPos, startFrame + streamPos, Min(maxFrames, prefixFrames - streamPos)))
      else if loop.None? || loopFrames <= 0 then None
      else
        var offset := (streamPos - prefixFrames) % loopFrames;
        Some(Chunk(streamPos, loop.value.start + offset, Min(maxFrames, loopFrames - offset)))
    }
  }

  function MakePlan(startFrame: real, totalFrames: real, loop: Option<(Num, Num)>): Plan
  {
    var total := Max(0, totalFrames.Floor);
    var start := Max(0, Min(startFrame.Floor, total));
    var valid := ValidateLoop(loop, total, MIN_LOOP_FRAMES);
    if valid.Some? && start < valid.value.end
    then Plan(start, total, valid, valid.value.end - start, valid.value.end - valid.value.start, None)
    else Plan(start, total, None, total - start, 0, Some(total - start))
  }

  // --- What a plan is ----------------------------------------------------------------

  /** The plans the constructor makes. */
  ghost predicate Valid(p: Plan)
  {
    && 0 <= p.startFrame <= p.totalFrames
    && match p.loop
       case Some(l) =>
         && 0 <= l.start && l.start + MIN_LOOP_FRAMES <= l.end <= p.totalFrames && p.startFrame < l.end
         && p.prefixFrames == l.end - p.startFrame && p.loopFrames == l.end - l.start && p.streamLength == None
       case None =>
         p.prefixFrames == p.totalFrames - p.startFrame && p.loopFrames == 0 && p.streamLength == Some(p.prefixFrames)
  }

  lemma MakePlanIsValid(startFrame: real, totalFrames: real, loop: Option<(Num, Num)>)
    ensures Valid(MakePlan(startFrame, totalFrames, loop))
    ensures var p := MakePlan(startFrame, totalFrames, loop);
            p.loop.Some? <==> exists l :: ValidateLoop(loop, p.totalFrames, MIN_LOOP_FRAMES) == Some(l) && p.startFrame < l.end
  {
    var p := MakePlan(startFrame, totalFrames, loop);
    var valid := ValidateLoop(loop, p.totalFrames, MIN_LOOP_FRAMES);
    if valid.Some? {
      assert valid == Some(valid.value);
    }
  }

  /** A usable range is inside the song and long enough, and is left as it is when it already was. */
  lemma ValidatedLoop(loop: Option<(Num, Num)>, total: int, minFrames: int)
    requires total >= 0
    ensures match ValidateLoop(loop, total, minFrames)
            case Some(l) => 0 <= l.start <= total && 0 <= l.end <= total && l.end - l.start >= minFrames
            case None => true
    ensures forall start: int, end: int ::
              0 <= start <= total && 0 <= end <= total && loop == Some((Fin(start as real), Fin(end as real))) ==>
              ValidateLoop(loop, total, minFrames) == if end - start < minFrames then None else Some(LoopRange(start, end))
  {
  }

  // --- Chunks -------------------------------------------------------------------------

  /** A chunk is what songFrameAt says, frame by frame, inside the song, and crosses no boundary. */
  lemma ChunkIsFaithful(p: Plan, streamPos: nat, maxFrames: int)
    requires Valid(p) && maxFrames > 0
    ensures match p.NextChunk(streamPos, maxFrames)
            case None => p.loop.None? && streamPos >= p.prefixFrames
            case Some(c) =>
              && c.streamStart == streamPos && 0 < c.frames <= maxFrames
              && 0 <= c.songStart && c.songStart + c.frames <= p.totalFrames
              && (p.streamLength.Some? ==> streamPos + c.frames <= p.streamLength.value)
              && (streamPos < p.prefixFrames ==> streamPos + c.frames <= p.prefixFrames)
              && (forall t :: streamPos <= t < streamPos + c.frames ==> p.SongFrameAt(t) == c.songStart + (t - streamPos))
  {
    if streamPos >= p.prefixFrames && p.loop.Some? {
      var s, m := streamPos - p.prefixFrames, p.loopFrames;
      var c := p.NextChunk(streamPos, maxFrames).value;
      assert 0 <= s % m < m && c.frames <= m - s % m;
      forall t | streamPos <= t < streamPos + c.frames
        ensures p.SongFrameAt(t) == c.songStart + (t - streamPos)
      {
        NoWrapInside(s, t - streamPos, m);
      }
    }
  }

  lemma NoWrapInside(s: nat, k: nat, m: int)
    requires m > 0 && s % m + k < m
    ensures (s + k) % m == s % m + k
  {
    var q := s / m;
    assert s + k == q * m + (s % m + k);
    ModUnique(s + k, m, q, s % m + k);
  }

  /** In the loop the song repeats with the loop's length, starting at its start. */
  lemma LoopRepeats(p: Plan, s: nat)
    requires Valid(p) && p.loop.Some? && s >= p.prefixFrames
    ensures p.SongFrameAt(p.prefixFrames) == p.loop.value.start
    ensures p.SongFrameAt(s + p.loopFrames) == p.SongFrameAt(s)
    ensures p.loop.value.start <= p.SongFrameAt(s) < p.loop.value.end
  {
    var t, m := s - p.prefixFrames, p.loopFrames;
    assert t + m == (t / m + 1) * m + t % m by {
      assert t == (t / m) * m + t % m;
    }
    ModUnique(t + m, m, t / m + 1, t % m);
  }

  // --- The position shown -----------------------------------------------------------------

  /** When the song frame looked up with the read word is the one at the true counter r. */
  predicate ShownTruly(p: Plan, r: nat)
  {
    var w := ToInt32(r);
    if r < TWO31 then true
    else if w < 0 then p.SongFrameAt(r) == p.SongFrameAt(0)
    else if w < p.prefixFrames then p.SongFrameAt(r) == p.startFrame + w
    else p.loopFrames > 0 ==> (r - w) % p.loopFrames == 0
  }

  /** The read word shows the frame heard below 2^31. Beyond, in a loop, it shows the start of the plan
      while it is negative, and else the frame heard only if the frames lost are whole rounds. */
  lemma PositionIsTrueExactlyWhen(p: Plan, r: nat)
    requires Valid(p)
    ensures p.SongFrameAt(ToInt32(r)) == p.SongFrameAt(r) <==> ShownTruly(p, r)
  {
    var w := ToInt32(r);
    if r >= TWO31 {
      WordIsBelow(r);
      if p.loop.Some? && w >= p.prefixFrames {
        SameRemainder(r - p.prefixFrames, w - p.prefixFrames, p.loopFrames);
      }
    }
  }

  lemma WordIsBelow(r: nat)
    ensures r >= TWO31 ==> ToInt32(r) < r
    ensures r < TWO31 ==> ToInt32(r) == r
  {
  }

  lemma SameRemainder(a: int, b: int, m: int)
    requires m > 0
    ensures a % m == b % m <==> (a - b) % m == 0
  {
    var x, y := a / m, b / m;
    assert a == x * m + a % m && b == y * m + b % m;
    if a % m == b % m {
      assert a - b == (x - y) * m + 0;
      ModUnique(a - b, m, x - y, 0);
    } else if (a - b) % m == 0 {
      var z := (a - b) / m;
      assert a == (z + y) * m + b % m;
      ModUnique(a, m, z + y, b % m);
    }
  }

  /** For its first 2^31 frames past there a loop shows the frame its plan started with. */
  lemma LongLoopsShowTheStart(p: Plan, r: nat)
    requires Valid(p) && p.loop.Some? && TWO31 <= r < TWO32
    ensures p.SongFrameAt(ToInt32(r)) == p.startFrame
  {
    assert ToInt32(r) == r - TWO32;
  }

  // --- Tiling ---------------------------------------------------------------------------

  /** Asking again and again, with any positive sizes, until the stream or the sizes run out. */
  function Tiles(p: Plan, streamPos: int, sizes: seq<int>): seq<Chunk>
    requires forall i :: 0 <= i < |sizes| ==> sizes[i] > 0
    decreases |sizes|
  {
    if sizes == [] || p.NextChunk(streamPos, sizes[0]).None? then []
    else
      var c := p.NextChunk(streamPos, sizes[0]).value;
      [c] + Tiles(p, streamPos + c.frames, sizes[1..])
  }

  function Frames(tiles: seq<Chunk>): int
  {
    if tiles == [] then 0 else tiles[0].frames + Frames(tiles[1..])
  }

  /** Where the tiles take the song: the song frames they name, in order. */
  function SongFrames(tiles: seq<Chunk>): seq<int>
  {
    if tiles == [] then []
    else seq(Max(0, tiles[0].frames), i => tiles[0].songStart + i) + SongFrames(tiles[1..])
  }

  /** The tiles lie end to end, from where the asking started. */
  lemma {:induction false} TilesLieEndToEnd(p: Plan, streamPos: nat, sizes: seq<int>)
    requires Valid(p) && forall i :: 0 <= i < |sizes| ==> sizes[i] > 0
    ensures var tiles := Tiles(p, streamPos, sizes);
            && (tiles != [] ==> tiles[0].streamStart == streamPos)
            && (forall i :: 0 <= i < |tiles| ==> tiles[i].frames > 0)
            && (forall i :: 0 <= i < |tiles| - 1 ==> tiles[i + 1].streamStart == tiles[i].streamStart + tiles[i].frames)
    decreases |sizes|
  {
    if sizes != [] && p.NextChunk(streamPos, sizes[0]).Some? {
      ChunkIsFaithful(p, streamPos, sizes[0]);
      TilesLieEndToEnd(p, streamPos + p.NextChunk(streamPos, sizes[0]).value.frames, sizes[1..]);
    }
  }

  /** A piece that is right frame by frame, followed by a stretch that is right frame by frame. */
  lemma PieceThenRest(p: Plan, streamPos: nat, c: Chunk, rest: seq<int>)
    requires c.frames > 0
    requires forall t :: streamPos <= t < streamPos + c.frames ==> p.SongFrameAt(t) == c.songStart + (t - streamPos)
    requires Follows(p, streamPos + c.frames, rest)
    ensures Follows(p, streamPos, seq(Max(0, c.frames), i => c.songStart + i) + rest)
    ensures |seq(Max(0, c.frames), i => c.songStart + i) + rest| == c.frames + |rest|
  {
    var all := seq(Max(0, c.frames), i => c.songStart + i) + rest;
    forall t | streamPos <= t < streamPos + |all|
      ensures all[t - streamPos] == p.SongFrameAt(t)
    {
      if t >= streamPos + c.frames {
        assert all[t - streamPos] == rest[t - (streamPos + c.frames)];
      }
    }
  }

  /** The song frames are those of the stream from streamPos on. */
  ghost predicate Follows(p: Plan, streamPos: int, songFrames: seq<int>)
  {
    forall t :: streamPos <= t < streamPos + |songFrames| ==> songFrames[t - streamPos] == p.SongFrameAt(t)
  }

  /** They name exactly the song frames of their stretch of the stream. */
  lemma {:induction false} TilesCoverTheStream(p: Plan, streamPos: nat, sizes: seq<int>)
    requires Valid(p) && forall i :: 0 <= i < |sizes| ==> sizes[i] > 0
    ensures var tiles := Tiles(p, streamPos, sizes);
            && 0 <= Frames(tiles) == |SongFrames(tiles)|
            && Follows(p, streamPos, SongFrames(tiles))
    decreases |sizes|
  {
    if sizes != [] && p.NextChunk(streamPos, sizes[0]).Some? {
      ChunkIsFaithful(p, streamPos, sizes[0]);
      var c := p.NextChunk(streamPos, sizes[0]).value;
      var rest := Tiles(p, streamPos + c.frames, sizes[1..]);
      TilesCoverTheStream(p, streamPos + c.frames, sizes[1..]);
      assert Tiles(p, streamPos, sizes)[1..] == rest;
      PieceThenRest(p, streamPos, c, SongFrames(rest));
    }
  }

  /** With one size throughout, a finite stream is tiled in steps of that size to its very end. */
  lemma {:induction false} FinitePlanEnds(p: Plan, streamPos: nat, size: int, steps: nat)
    requires Valid(p) && p.loop.None? && size > 0 && streamPos <= p.prefixFrames
    ensures var sizes := seq(steps, _ => size);
            Frames(Tiles(p, streamPos, sizes)) == Min(steps * size, p.prefixFrames - streamPos)
    ensures steps * size >= p.prefixFrames - streamPos ==>
              p.NextChunk(streamPos + Frames(Tiles(p, streamPos, seq(steps, _ => size))), size) == None
    decreases steps
  {
    var sizes := seq(steps, _ => size);
    TimesStep(steps, size);
    if steps > 0 && streamPos < p.prefixFrames {
      ChunkIsFaithful(p, streamPos, size);
      var c := p.NextChunk(streamPos, size).value;
      assert sizes[1..] == seq(steps - 1, _ => size);
      FinitePlanEnds(p, streamPos + c.frames, size, steps - 1);
      assert Tiles(p, streamPos, sizes)[1..] == Tiles(p, streamPos + c.frames, sizes[1..]);
    } else if steps > 0 {
      assert Tiles(p, streamPos, sizes) == [];
    }
  }

  lemma TimesStep(steps: nat, size: int)
    requires size > 0
    ensures steps * size == (steps - 1) * size + size
    ensures steps == 0 ==> steps * size == 0
    ensures steps > 0 ==> (steps - 1) * size >= 0
  {
  }

  // --- Byte ranges ------------------------------------------------------------------------

  datatype WavFormat = WavFormat(dataOffset: int, blockAlign: int, totalFrames: int)

  /** First and last byte of a piece of the file; None is the thrown error. */
  function ByteRangeFor(fmt: WavFormat, songStart: int, frames: int): Option<(int, int)>
  {
    if frames <= 0 || songStart < 0 || songStart + frames > fmt.totalFrames then None
    else
      var start := fmt.dataOffset + songStart * fmt.blockAlign;
      Some((start, start + frames * fmt.blockAlign - 1))
  }

  /** No chunk of a plan over at most the file's frames is refused; its range holds exactly its
      frames and lies inside the data; pieces that adjoin in the song adjoin in the file. */
  lemma ChunksHaveByteRanges(p: Plan, fmt: WavFormat, streamPos: nat, maxFrames: int)
    requires Valid(p) && maxFrames > 0 && p.totalFrames <= fmt.totalFrames && fmt.blockAlign > 0
    requires p.NextChunk(streamPos, maxFrames).Some?
    ensures var c := p.NextChunk(streamPos, maxFrames).value;
            var r := ByteRangeFor(fmt, c.songStart, c.frames);
            && r.Some? && var (first, last) := r.value;
            && last - first + 1 == c.frames * fmt.blockAlign
            && fmt.dataOffset <= first <= last < fmt.dataOffset + fmt.totalFrames * fmt.blockAlign
            && first == fmt.dataOffset + p.SongFrameAt(streamPos) * fmt.blockAlign
  {
    ChunkIsFaithful(p, streamPos, maxFrames);
    var c := p.NextChunk(streamPos, maxFrames).value;
    assert p.SongFrameAt(streamPos) == c.songStart;
    ByteRangeIsInside(fmt, c.songStart, c.frames);
  }

  lemma ByteRangeIsInside(fmt: WavFormat, songStart: int, frames: int)
    requires fmt.blockAlign > 0 && 0 <= songStart && 0 < frames && songStart + frames <= fmt.totalFrames
    ensures var r := ByteRangeFor(fmt, songStart, frames);
            && r.Some? && var (first, last) := r.value;
            && last - first + 1 == frames * fmt.blockAlign
            && fmt.dataOffset <= first <= last < fmt.dataOffset + fmt.totalFrames * fmt.blockAlign
            && first == fmt.dataOffset + songStart * fmt.blockAlign
  {
    var b := fmt.blockAlign;
    var spare := fmt.totalFrames - (songStart + frames);
    assert fmt.totalFrames * b == songStart * b + frames * b + spare * b by {
      assert fmt.totalFrames == songStart + frames + spare;
      Distribute(songStart, frames, spare, b);
    }
    assert songStart * b >= 0 && frames * b >= b && spare * b >= 0;
  }

  lemma Distribute(x: int, y: int, z: int, b: int)
    ensures (x + y + z) * b == x * b + y * b + z * b
  {
  }
}
