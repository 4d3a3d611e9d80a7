/**
 One generation of playback at the grain of single memory accesses: the main
 thread fetches, fills and publishes, the audio thread loads, copies and
 publishes, and every access of one may fall between any two of the other.
 */
module Playback {
  import opened Prelude
  import opened Wrap32
  import opened PlayPlan
  import R = Rings

  type Sample = seq<real>                                  // one frame of one stem, all its channels

  /** The audio thread inside process(). */
  datatype Reader =
    | Idle
    | Loading(next: nat, avail: int, need: int)            // reading the WRITE_POS words one by one
    | Copying(need: int, stem: nat, k: nat)                // copying frame k of stem to its output

  /** One stem's streamer on the main thread. */
  datatype Writer =
    | Resting
    | Fetching(chunk: Chunk)                               // request in flight
    | Filling(chunk: Chunk, k: nat)                        // copying frame k into the ring

  datatype Stream = Stream(
    r: nat, w: seq<nat>,                                   // frames consumed and streamed, unbounded
    rWord: int, wWords: seq<int>, eofWord: int,            // the control words
    playing: bool, ended: bool, overflow: bool,
    rings: seq<seq<Sample>>, out: seq<seq<Sample>>,
    reader: Reader, writers: seq<Writer>)

  datatype Setup = Setup(n: nat, plan: Plan, songs: seq<seq<Sample>>)

  datatype Act =
    | SetPlaying(on: bool)
    | Begin(quantum: nat)
    | Load
    | CopyFrame
    | Publish
    | Tick(i: nat, maxFrames: int, prefetch: int)
    | Arrive(i: nat)
    | FillFrame(i: nat)
    | PublishWrite(i: nat)

  // --- One access ---------------------------------------------------------------------

  function Size(c: Setup): nat { Pow2(c.n) }

  function Stems(c: Setup): nat { |c.songs| }

  /** `pos & mask` on a control word. */
  function Slot(c: Setup, word: int): (slot: nat)
    ensures slot < Size(c)
  {
    MaskIsMod(word, c.n);
    And(word, Size(c) - 1)
  }

  /** The decoded frame of a stem; nothing outside the file. */
  function SongAt(c: Setup, i: nat, frame: int): Sample
  {
    if i < |c.songs| && 0 <= frame < |c.songs[i]| then c.songs[i][frame] else []
  }

  predicate Shaped(c: Setup, s: Stream)
  {
    && |s.w| == |s.wWords| == |s.rings| == |s.out| == |s.writers| == Stems(c)
    && forall i :: 0 <= i < Stems(c) ==> |s.rings[i]| == Size(c)
  }

  function Buffered(s: Stream, i: nat): int
    requires i < |s.wWords|
  {
    ToInt32(s.wWords[i] - s.rWord)
  }

  function Start(c: Setup): Stream
  {
    Stream(0, seq(Stems(c), _ => 0), 0, seq(Stems(c), _ => 0),
           if c.plan.streamLength.None? then -1 else ToInt32(c.plan.streamLength.value),
           false, false, false,
           seq(Stems(c), _ => seq(Size(c), _ => [])), seq(Stems(c), _ => []), Idle, seq(Stems(c), _ => Resting))
  }

  /** process() starts: STATE, READ_POS and EOF_POS are read. */
  function BeginStep(s: Stream, quantum: nat): Stream
  {
    if s.reader != Idle || !s.playing || quantum == 0 then s
    else if R.Need(s.eofWord, s.rWord, quantum).None? then s.(ended := true)
    else s.(reader := Loading(0, 0x7fff_ffff, R.Need(s.eofWord, s.rWord, quantum).value))
  }

  /** One more WRITE_POS is read; after the last, the quantum is played or counted as an underrun. */
  function LoadStep(s: Stream): Stream
  {
    if !s.reader.Loading? then s
    else
      var next := s.reader.next;
      if next < |s.wWords| then
        s.(reader := Loading(next + 1, Min(s.reader.avail, Buffered(s, next)), s.reader.need))
      else if s.reader.avail < s.reader.need then s.(reader := Idle)
      else s.(reader := Copying(s.reader.need, 0, 0))
  }

  function CopyStep(c: Setup, s: Stream): Stream
    requires Shaped(c, s)
  {
    if !s.reader.Copying? || s.reader.stem >= Stems(c) then s
    else
      var need, i, k := s.reader.need, s.reader.stem, s.reader.k;
      if k >= need then s.(reader := Copying(need, i + 1, 0))
      else s.(out := s.out[i := s.out[i] + [s.rings[i][Slot(c, s.rWord + k)]]], reader := Copying(need, i, k + 1))
  }

  function PublishStep(c: Setup, s: Stream): Stream
  {
    if !s.reader.Copying? || s.reader.stem < Stems(c) || s.reader.need < 0 then s
    else s.(r := s.r + s.reader.need, rWord := ToInt32(s.rWord + s.reader.need), reader := Idle)
  }

  /** A resting streamer asks for the next piece when the ring has room and the lead is short. */
  function TickStep(c: Setup, s: Stream, i: nat, maxFrames: int, prefetch: int): Stream
    requires Shaped(c, s)
  {
    if i >= Stems(c) || s.writers[i] != Resting || maxFrames <= 0 || c.plan.NextChunk(s.w[i], maxFrames).None? then s
    else
      var chunk := c.plan.NextChunk(s.w[i], maxFrames).value;
      if Size(c) - Buffered(s, i) >= chunk.frames && Buffered(s, i) < prefetch
      then s.(writers := s.writers[i := Fetching(chunk)]) else s
  }

  function ArriveStep(c: Setup, s: Stream, i: nat): Stream
    requires Shaped(c, s)
  {
    if i >= Stems(c) || !s.writers[i].Fetching? then s
    else if s.writers[i].chunk.frames > Size(c) - Buffered(s, i) then s.(overflow := true)
    else s.(writers := s.writers[i := Filling(s.writers[i].chunk, 0)])
  }

  function FillStep(c: Setup, s: Stream, i: nat): Stream
    requires Shaped(c, s)
  {
    if i >= Stems(c) || !s.writers[i].Filling? || s.writers[i].k >= s.writers[i].chunk.frames then s
    else
      var chunk, k := s.writers[i].chunk, s.writers[i].k;
      s.(rings := s.rings[i := s.rings[i][Slot(c, s.wWords[i] + k) := SongAt(c, i, chunk.songStart + k)]],
         writers := s.writers[i := Filling(chunk, k + 1)])
  }

  function PublishWriteStep(c: Setup, s: Stream, i: nat): Stream
    requires Shaped(c, s)
  {
    if i >= Stems(c) || !s.writers[i].Filling? || s.writers[i].k < s.writers[i].chunk.frames || s.writers[i].chunk.frames < 0
    then s
    else
      var frames := s.writers[i].chunk.frames;
      s.(w := s.w[i := s.w[i] + frames], wWords := s.wWords[i := ToInt32(s.wWords[i] + frames)],
         writers := s.writers[i := Resting])
  }

  function Step(c: Setup, s: Stream, a: Act): (s': Stream)
    requires Shaped(c, s)
    ensures Shaped(c, s')
  {
    match a
    case SetPlaying(on) => s.(playing := on)
    case Begin(quantum) => BeginStep(s, quantum)
    case Load => LoadStep(s)
    case CopyFrame => CopyStep(c, s)
    case Publish => PublishStep(c, s)
    case Tick(i, maxFrames, prefetch) => TickStep(c, s, i, maxFrames, prefetch)
    case Arrive(i) => ArriveStep(c, s, i)
    case FillFrame(i) => FillStep(c, s, i)
    case PublishWrite(i) => PublishWriteStep(c, s, i)
  }

  function Run(c: Setup, acts: seq<Act>): (s: Stream)
    ensures Shaped(c, s)
  {
    if acts == [] then Start(c) else Step(c, Run(c, acts[..|acts| - 1]), acts[|acts| - 1])
  }

  // --- What holds between any two accesses -----------------------------------------------

  /** The frame stem i must play at stream position p. */
  function Want(c: Setup, i: nat, p: int): Sample { SongAt(c, i, c.plan.SongFrameAt(p)) }

  /** Frames of a block already copied but not published. */
  function Filled(wr: Writer): nat { if wr.Filling? then wr.k else 0 }

  predicate Within(c: Setup, p: int)
  {
    c.plan.streamLength.Some? ==> p <= c.plan.streamLength.value
  }

  /** The words are the counters modulo 2^32, and the writer never laps the reader. */
  ghost predicate CounterOk(c: Setup, s: Stream, i: nat)
    requires Shaped(c, s) && i < Stems(c)
  {
    s.wWords[i] == ToInt32(s.w[i]) && s.r <= s.w[i] <= s.r + Size(c)
  }

  /** A block is what the plan says at the writer's position, and fits in the ring. */
  ghost predicate BlockOk(c: Setup, s: Stream, i: nat)
    requires Shaped(c, s) && i < Stems(c)
  {
    !s.writers[i].Resting? ==>
      var chunk := s.writers[i].chunk;
      && 0 < chunk.frames && s.w[i] + chunk.frames <= s.r + Size(c)
      && (forall p :: s.w[i] <= p < s.w[i] + chunk.frames ==> c.plan.SongFrameAt(p) == chunk.songStart + (p - s.w[i]))
      && Filled(s.writers[i]) <= chunk.frames
  }

  /** Every unread frame lies in its ring, including the copied part of a block being filled. */
  ghost predicate RingOk(c: Setup, s: Stream, i: nat)
    requires Shaped(c, s) && i < Stems(c)
  {
    forall p :: s.r <= p < s.w[i] + Filled(s.writers[i]) ==> s.rings[i][p % Size(c)] == Want(c, i, p)
  }

  /** Frames stem i has put out since READ_POS was last published. */
  function Ahead(rd: Reader, i: nat): nat
  {
    match rd
    case Copying(need, stem, k) => if i < stem && need >= 0 then need else if i == stem then k else 0
    case _ => 0
  }

  ghost predicate OutOk(c: Setup, s: Stream, i: nat)
    requires Shaped(c, s) && i < Stems(c)
  {
    |s.out[i]| == s.r + Ahead(s.reader, i) && forall p :: 0 <= p < |s.out[i]| ==> s.out[i][p] == Want(c, i, p)
  }

  /** What the audio thread has found out is still true. */
  ghost predicate ReaderOk(c: Setup, s: Stream)
    requires Shaped(c, s)
  {
    && s.rWord == ToInt32(s.r)
    && s.eofWord == (if c.plan.streamLength.None? then -1 else c.plan.streamLength.value)
    && Within(c, s.r) && (s.ended ==> c.plan.streamLength == Some(s.r))
    && match s.reader
       case Idle => true
       case Loading(next, avail, need) =>
         && next <= Stems(c) && 0 < need && Within(c, s.r + need)
         && forall i :: 0 <= i < next ==> s.r + avail <= s.w[i]
       case Copying(need, stem, k) =>
         && stem <= Stems(c) && 0 <= k <= need && 0 < need && Within(c, s.r + need)
         && forall i :: 0 <= i < Stems(c) ==> s.r + need <= s.w[i]
  }

  ghost predicate WritersOk(c: Setup, s: Stream)
    requires Shaped(c, s)
  {
    !s.overflow && forall i :: 0 <= i < Stems(c) ==> CounterOk(c, s, i) && BlockOk(c, s, i)
  }

  ghost predicate SoundOk(c: Setup, s: Stream)
    requires Shaped(c, s)
  {
    forall i :: 0 <= i < Stems(c) ==> RingOk(c, s, i) && OutOk(c, s, i)
  }

  ghost predicate Inv(c: Setup, s: Stream)
  {
    Shaped(c, s) && ReaderOk(c, s) && WritersOk(c, s) && SoundOk(c, s)
  }

  /** What playback relies on: a ring of at most 2^30 frames, a stream whose end fits its word. */
  ghost predicate SetupOk(c: Setup)
  {
    && c.n <= 30 && Stems(c) >= 1 && Valid(c.plan)
    && (c.plan.streamLength.Some? ==> c.plan.streamLength.value < TWO31)
  }

  lemma {:induction false} StartHolds(c: Setup)
    requires SetupOk(c)
    ensures Inv(c, Start(c))
  {
  }

  // --- The words tell the truth -------------------------------------------------------------

  lemma RingIsSmall(c: Setup)
    requires c.n <= 30
    ensures 0 < Size(c) < TWO31
  {
    Pow2Is32();
    Pow2Grows(c.n, 30);
  }

  /** Buffered frames computed from the words are the true distance of the counters. */
  lemma BufferedIsTrue(c: Setup, s: Stream, i: nat)
    requires SetupOk(c) && Shaped(c, s) && s.rWord == ToInt32(s.r) && i < Stems(c) && CounterOk(c, s, i)
    ensures Buffered(s, i) == s.w[i] - s.r
  {
    RingIsSmall(c);
    DistanceSurvivesWrap(s.w[i], s.r);
  }

  /** The slot computed from a word is the counter modulo the ring size. */
  lemma SlotIsTrue(c: Setup, word: int, p: int, k: nat)
    requires c.n <= 30 && word == ToInt32(p)
    ensures Slot(c, word + k) == (p + k) % Size(c)
  {
    MaskIsMod(word + k, c.n);
    IndexSurvivesWrap(p, c.n);
    R.SharedRings.SameSlot(word, k, Size(c));
    R.SharedRings.SameSlot(p, k, Size(c));
  }

  /** Two positions less than a ring apart never share a slot. */
  lemma SlotsApart(p: int, q: int, m: int)
    requires m > 0 && p < q < p + m
    ensures p % m != q % m
  {
    var d := q / m - p / m;
    assert q - p == d * m + (q % m - p % m) by {
      assert p == (p / m) * m + p % m;
      assert q == (q / m) * m + q % m;
    }
    Multiple(d, m);
  }

  /** What the reader needs is the true rest of the stream. */
  lemma NeedIsTrue(c: Setup, s: Stream, quantum: nat)
    requires SetupOk(c) && Shaped(c, s) && ReaderOk(c, s) && quantum > 0
    ensures R.Need(s.eofWord, s.rWord, quantum) ==
            if c.plan.streamLength.None? then Some(quantum)
            else if s.r == c.plan.streamLength.value then None
            else Some(Min(c.plan.streamLength.value - s.r, quantum))
  {
  }

  // --- One step keeps it -------------------------------------------------------------------------

  /** Nothing a stem's invariants speak about has changed. */
  ghost predicate SameStem(s: Stream, s': Stream, i: nat)
    requires i < |s.w| == |s.wWords| == |s.rings| == |s.out| == |s.writers|
    requires i < |s'.w| == |s'.wWords| == |s'.rings| == |s'.out| == |s'.writers|
  {
    && s'.r == s.r && s'.w[i] == s.w[i] && s'.wWords[i] == s.wWords[i] && s'.writers[i] == s.writers[i]
    && s'.rings[i] == s.rings[i] && s'.out[i] == s.out[i] && Ahead(s'.reader, i) == Ahead(s.reader, i)
  }

  lemma SameStemKeeps(c: Setup, s: Stream, s': Stream, i: nat)
    requires Shaped(c, s) && Shaped(c, s') && i < Stems(c) && SameStem(s, s', i)
    ensures CounterOk(c, s', i) == CounterOk(c, s, i) && BlockOk(c, s', i) == BlockOk(c, s, i)
    ensures RingOk(c, s', i) == RingOk(c, s, i) && OutOk(c, s', i) == OutOk(c, s, i)
  {
  }

  /** Only stem `except`, if any, has changed, and that one is right. */
  lemma OthersKeep(c: Setup, s: Stream, s': Stream, except: int)
    requires Shaped(c, s) && Shaped(c, s') && WritersOk(c, s) && SoundOk(c, s) && !s'.overflow
    requires forall i :: 0 <= i < Stems(c) && i != except ==> SameStem(s, s', i)
    requires 0 <= except < Stems(c) ==>
               CounterOk(c, s', except) && BlockOk(c, s', except) && RingOk(c, s', except) && OutOk(c, s', except)
    ensures WritersOk(c, s') && SoundOk(c, s')
  {
    forall i | 0 <= i < Stems(c)
      ensures CounterOk(c, s', i) && BlockOk(c, s', i) && RingOk(c, s', i) && OutOk(c, s', i)
    {
      if i != except {
        SameStemKeeps(c, s, s', i);
      }
    }
  }

  lemma BeginKeeps(c: Setup, s: Stream, quantum: nat)
    requires SetupOk(c) && Inv(c, s)
    ensures Inv(c, BeginStep(s, quantum))
  {
    if quantum > 0 {
      NeedIsTrue(c, s, quantum);
    }
    OthersKeep(c, s, BeginStep(s, quantum), -1);
  }

  lemma LoadKeeps(c: Setup, s: Stream)
    requires SetupOk(c) && Inv(c, s)
    ensures Inv(c, LoadStep(s))
  {
    if s.reader.Loading? && s.reader.next < Stems(c) {
      BufferedIsTrue(c, s, s.reader.next);
    }
    OthersKeep(c, s, LoadStep(s), -1);
  }

  lemma CopyKeeps(c: Setup, s: Stream)
    requires SetupOk(c) && Inv(c, s)
    ensures Inv(c, CopyStep(c, s))
  {
    var s' := CopyStep(c, s);
    if s.reader.Copying? && s.reader.stem < Stems(c) && s.reader.k < s.reader.need {
      var i := s.reader.stem;
      CopyKeepsStem(c, s);
      OthersKeep(c, s, s', i);
    } else {
      OthersKeep(c, s, s', -1);
    }
  }

  lemma CopyKeepsStem(c: Setup, s: Stream)
    requires SetupOk(c) && Inv(c, s)
    requires s.reader.Copying? && s.reader.stem < Stems(c) && s.reader.k < s.reader.need
    ensures var s', i := CopyStep(c, s), s.reader.stem;
            CounterOk(c, s', i) && BlockOk(c, s', i) && RingOk(c, s', i) && OutOk(c, s', i)
  {
    var s', i, k := CopyStep(c, s), s.reader.stem, s.reader.k;
    assert CounterOk(c, s, i) && BlockOk(c, s, i) && RingOk(c, s, i) && OutOk(c, s, i);
    SlotIsTrue(c, s.rWord, s.r, k);
    assert s.rings[i][(s.r + k) % Size(c)] == Want(c, i, s.r + k);
  }

  /** Freeing what was played only gives the writers more room. */
  lemma PublishKeeps(c: Setup, s: Stream)
    requires SetupOk(c) && Inv(c, s)
    ensures Inv(c, PublishStep(c, s))
  {
    if s.reader.Copying? && s.reader.stem >= Stems(c) {
      AdvanceSurvivesWrap(s.r, s.reader.need);
      var s' := PublishStep(c, s);
      forall i | 0 <= i < Stems(c)
        ensures CounterOk(c, s', i) && BlockOk(c, s', i) && RingOk(c, s', i) && OutOk(c, s', i)
      {
        assert CounterOk(c, s, i) && BlockOk(c, s, i) && RingOk(c, s, i) && OutOk(c, s, i);
      }
    }
  }

  lemma TickKeeps(c: Setup, s: Stream, i: nat, maxFrames: int, prefetch: int)
    requires SetupOk(c) && Inv(c, s)
    ensures Inv(c, TickStep(c, s, i, maxFrames, prefetch))
  {
    var s' := TickStep(c, s, i, maxFrames, prefetch);
    if i < Stems(c) && maxFrames > 0 && s' != s {
      assert CounterOk(c, s, i) && RingOk(c, s, i) && OutOk(c, s, i);
      BufferedIsTrue(c, s, i);
      ChunkIsFaithful(c.plan, s.w[i], maxFrames);
      OthersKeep(c, s, s', i);
    }
  }

  /** Space only grows between the request and its answer: a block never overflows the ring. */
  lemma ArriveKeeps(c: Setup, s: Stream, i: nat)
    requires SetupOk(c) && Inv(c, s)
    ensures Inv(c, ArriveStep(c, s, i))
  {
    if i < Stems(c) {
      assert CounterOk(c, s, i) && BlockOk(c, s, i) && RingOk(c, s, i) && OutOk(c, s, i);
      BufferedIsTrue(c, s, i);
      OthersKeep(c, s, ArriveStep(c, s, i), i);
    }
  }

  lemma FillKeeps(c: Setup, s: Stream, i: nat)
    requires SetupOk(c) && Inv(c, s)
    ensures Inv(c, FillStep(c, s, i))
  {
    if i < Stems(c) && s.writers[i].Filling? && s.writers[i].k < s.writers[i].chunk.frames {
      var s' := FillStep(c, s, i);
      assert CounterOk(c, s, i) && BlockOk(c, s, i) && OutOk(c, s, i);
      FillKeepsRing(c, s, i);
      OthersKeep(c, s, s', i);
    }
  }

  /** The frame lands where no unread frame lies. */
  lemma FillKeepsRing(c: Setup, s: Stream, i: nat)
    requires SetupOk(c) && Shaped(c, s) && i < Stems(c)
    requires CounterOk(c, s, i) && BlockOk(c, s, i) && RingOk(c, s, i)
    requires s.writers[i].Filling? && s.writers[i].k < s.writers[i].chunk.frames
    ensures RingOk(c, FillStep(c, s, i), i)
  {
    var k := s.writers[i].k;
    var q := s.w[i] + k;
    SlotIsTrue(c, s.wWords[i], s.w[i], k);
    var ring := s.rings[i][q % Size(c) := Want(c, i, q)];
    assert FillStep(c, s, i).rings[i] == ring;
    forall p | s.r <= p < q + 1
      ensures ring[p % Size(c)] == Want(c, i, p)
    {
      if p < q {
        SlotsApart(p, q, Size(c));
      }
    }
  }

  lemma PublishWriteKeeps(c: Setup, s: Stream, i: nat)
    requires SetupOk(c) && Inv(c, s)
    ensures Inv(c, PublishWriteStep(c, s, i))
  {
    if i < Stems(c) && s.writers[i].Filling? && s.writers[i].k >= s.writers[i].chunk.frames {
      assert CounterOk(c, s, i) && BlockOk(c, s, i) && RingOk(c, s, i) && OutOk(c, s, i);
      AdvanceSurvivesWrap(s.w[i], s.writers[i].chunk.frames);
      OthersKeep(c, s, PublishWriteStep(c, s, i), i);
    }
  }

  lemma StepKeeps(c: Setup, s: Stream, a: Act)
    requires SetupOk(c) && Inv(c, s)
    ensures Inv(c, Step(c, s, a))
  {
    match a
    case SetPlaying(on) => OthersKeep(c, s, s.(playing := on), -1);
    case Begin(quantum) => BeginKeeps(c, s, quantum);
    case Load => LoadKeeps(c, s);
    case CopyFrame => CopyKeeps(c, s);
    case Publish => PublishKeeps(c, s);
    case Tick(i, maxFrames, prefetch) => TickKeeps(c, s, i, maxFrames, prefetch);
    case Arrive(i) => ArriveKeeps(c, s, i);
    case FillFrame(i) => FillKeeps(c, s, i);
    case PublishWrite(i) => PublishWriteKeeps(c, s, i);
  }

  lemma {:induction false} EveryRunKeeps(c: Setup, acts: seq<Act>)
    requires SetupOk(c)
    ensures Inv(c, Run(c, acts))
  {
    if acts == [] {
      StartHolds(c);
    } else {
      EveryRunKeeps(c, acts[..|acts| - 1]);
      StepKeeps(c, Run(c, acts[..|acts| - 1]), acts[|acts| - 1]);
    }
  }

  // --- What the listener gets ------------------------------------------------------------------------

  /** Whatever interleaves, stem i has put out exactly the decoded song at the plan's frames. */
  lemma SampleExact(c: Setup, acts: seq<Act>, i: nat, p: nat)
    requires SetupOk(c) && i < Stems(c) && p < |Run(c, acts).out[i]|
    ensures Run(c, acts).out[i][p] == SongAt(c, i, c.plan.SongFrameAt(p))
    ensures c.plan.totalFrames <= |c.songs[i]| ==> 0 <= c.plan.SongFrameAt(p) < |c.songs[i]|
  {
    EveryRunKeeps(c, acts);
    assert OutOk(c, Run(c, acts), i);
    ChunkIsFaithful(c.plan, p, 1);
    assert c.plan.NextChunk(p, 1).Some?;
  }

  /** Between quanta all stems have put out the same number of frames. */
  lemma Lockstep(c: Setup, acts: seq<Act>, i: nat, j: nat)
    requires SetupOk(c) && i < Stems(c) && j < Stems(c) && Run(c, acts).reader == Idle
    ensures |Run(c, acts).out[i]| == |Run(c, acts).out[j]| == Run(c, acts).r
    ensures Run(c, acts).rWord == ToInt32(|Run(c, acts).out[i]|)
  {
    EveryRunKeeps(c, acts);
    assert OutOk(c, Run(c, acts), i) && OutOk(c, Run(c, acts), j);
  }

  /** In every state the song frame looked up with the read word is the next one to be heard exactly
      under that condition; a finite stream always meets it. */
  lemma PositionShown(c: Setup, acts: seq<Act>)
    requires SetupOk(c)
    ensures var s := Run(c, acts);
            && (c.plan.SongFrameAt(s.rWord) == c.plan.SongFrameAt(s.r) <==> ShownTruly(c.plan, s.r))
            && (c.plan.loop.None? ==> c.plan.SongFrameAt(s.rWord) == c.plan.SongFrameAt(s.r))
  {
    EveryRunKeeps(c, acts);
    PositionIsTrueExactlyWhen(c.plan, Run(c, acts).r);
  }

  /** A stream is reported ended only after exactly its length, and a looping one never. */
  lemma EndsExactly(c: Setup, acts: seq<Act>, i: nat)
    requires SetupOk(c) && i < Stems(c) && Run(c, acts).ended
    ensures c.plan.streamLength == Some(|Run(c, acts).out[i]|)
  {
    EveryRunKeeps(c, acts);
    assert OutOk(c, Run(c, acts), i);
  }

  /** And it is reported ended by the first quantum that starts there. */
  lemma EndIsNoticed(c: Setup, acts: seq<Act>, quantum: nat)
    requires SetupOk(c) && quantum > 0
    requires var s := Run(c, acts); s.reader == Idle && s.playing && c.plan.streamLength == Some(s.r)
    ensures Step(c, Run(c, acts), Begin(quantum)).ended
  {
    EveryRunKeeps(c, acts);
    NeedIsTrue(c, Run(c, acts), quantum);
  }

  /** No writer ever laps the reader, and no fetched block is ever refused for lack of room. */
  lemma NeverOverwrites(c: Setup, acts: seq<Act>, i: nat)
    requires SetupOk(c) && i < Stems(c)
    ensures !Run(c, acts).overflow
    ensures Run(c, acts).w[i] + Filled(Run(c, acts).writers[i]) - Run(c, acts).r <= Size(c)
    ensures Buffered(Run(c, acts), i) == Run(c, acts).w[i] - Run(c, acts).r
  {
    EveryRunKeeps(c, acts);
    BufferedIsTrue(c, Run(c, acts), i);
    assert BlockOk(c, Run(c, acts), i);
  }

  // --- The grain of process() --------------------------------------------------------------------------

  function Loads(s: Stream, n: nat): Stream
  {
    if n == 0 then s else LoadStep(Loads(s, n - 1))
  }

  lemma {:induction false} LoadsFindTheLead(s: Stream, n: nat)
    requires s.reader.Loading? && s.reader.next == 0 && s.reader.avail == 0x7fff_ffff && n <= |s.wWords|
    ensures Loads(s, n) == s.(reader := Loading(n, R.Avail(s.wWords[..n], s.rWord), s.reader.need))
  {
    if n > 0 {
      LoadsFindTheLead(s, n - 1);
      assert s.wWords[..n][..n - 1] == s.wWords[..n - 1];
    }
  }

  /** A quantum nobody interrupts does what one call of process() decides. */
  lemma UninterruptedQuantum(s: Stream, quantum: nat)
    requires s.reader == Idle && s.playing && quantum > 0
    ensures match R.Decide(R.PLAYING, s.eofWord, s.rWord, s.wWords, quantum)
            case Silent => false
            case End => BeginStep(s, quantum) == s.(ended := true)
            case Underrun => Loads(BeginStep(s, quantum), |s.wWords| + 1) == s
            case Play(need) => Loads(BeginStep(s, quantum), |s.wWords| + 1) == s.(reader := Copying(need, 0, 0))
  {
    if R.Need(s.eofWord, s.rWord, quantum).Some? {
      LoadsFindTheLead(BeginStep(s, quantum), |s.wWords|);
      assert s.wWords[..|s.wWords|] == s.wWords;
    }
  }

  /** Without the bound on its length a finite stream cannot end right: the reader stops at the
      word, which is then below the length or not an end at all. */
  lemma LongStreamsEndWrong(length: nat, r: nat, quantum: nat)
    requires length >= TWO31 && quantum > 0
    ensures var eof := ToInt32(length);
            if eof < 0 then R.Need(eof, ToInt32(r), quantum) == Some(quantum)
            else eof < length && R.Need(eof, ToInt32(eof), quantum) == None
  {
    EofWord(length);
  }
}
