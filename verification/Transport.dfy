/**
 The transport of the streaming player (engine.ts): play, stop, seek and loop
 against a worklet that answers flush requests at its own pace.
 */
module Transport {
  import opened Prelude
  import opened PlayPlan
  import R = Rings

  datatype Phase = Idle | Ready | Priming | Playing | Stopped | Ended | Failed

  datatype Engine = Engine(
    rate: int, total: int,                                 // sampleRate, totalFrames
    phase: Phase, generation: nat, pendingFlush: Option<nat>, anchor: int, plan: Option<Plan>, loop: Option<LoopRange>,
    ctx: bool, node: bool,                                 // the audio context and the worklet node exist
    interval: bool, streaming: Option<nat>,                // the 50 ms timer runs; the streamers' generation
    word: int, readPos: int, eof: int, ended: bool,        // control words
    timers: seq<nat>, toWorklet: seq<nat>,                 // timeouts that will post a flush; posted flushes
    asked: map<nat, int>)                                  // history: the frame each startFrom was given

  // --- What each call does ------------------------------------------------------------

  function FrameAt(rate: int, seconds: real): int { (seconds * rate as real + 0.5).Floor }

  function RangeFrames(rate: int, range: (real, real)): (Num, Num)
  {
    (Fin(FrameAt(rate, range.0) as real), Fin(FrameAt(rate, range.1) as real))
  }

  predicate Active(e: Engine) { e.phase == Playing || e.phase == Priming }

  function CurrentFrame(e: Engine): int
  {
    if Active(e) && e.plan.Some? then e.plan.value.SongFrameAt(e.readPos) else e.anchor
  }

  function Halted(e: Engine): Engine
  {
    e.(generation := e.generation + 1, pendingFlush := None, word := R.STOPPED, streaming := None, interval := false)
  }

  function StartedFrom(e: Engine, frame: int): Engine
  {
    if !e.node then e
    else
      var g := e.generation + 1;
      Halted(e).(anchor := frame, phase := Priming, pendingFlush := Some(g), timers := e.timers + [g], asked := e.asked[g := frame])
  }

  function AfterPlay(e: Engine): Engine
  {
    if !e.ctx || Active(e) then e
    else
      var frame := if e.phase == Ended || e.anchor >= e.total then 0 else e.anchor;
      StartedFrom(e.(anchor := frame), frame)
  }

  function AfterStop(e: Engine): Engine
  {
    if !e.ctx || e.phase == Stopped || e.phase == Ready then e
    else Halted(e).(anchor := CurrentFrame(e), phase := Stopped)
  }

  function SeekFrame(e: Engine, seconds: real): int
  {
    Max(0, Min(FrameAt(e.rate, seconds), e.total))
  }

  function AfterSeek(e: Engine, seconds: real): Engine
  {
    if !e.ctx then e
    else if Active(e) then StartedFrom(e, SeekFrame(e, seconds))
    else e.(anchor := SeekFrame(e, seconds), phase := if e.phase == Ended then Stopped else e.phase)
  }

  /** The range a loop request stands for; None when it is refused. */
  function LoopFor(e: Engine, range: Option<(real, real)>): Option<Option<LoopRange>>
  {
    if range.None? then Some(None)
    else
      var valid := ValidateLoop(Some(RangeFrames(e.rate, range.value)), e.total, MIN_LOOP_FRAMES);
      if valid.None? then None else Some(valid)
  }

  function AfterSetLoop(e: Engine, range: Option<(real, real)>): Engine
  {
    if !e.ctx || LoopFor(e, range).None? then e
    else
      var changed := e.(loop := LoopFor(e, range).value);
      if Active(changed) then StartedFrom(changed, CurrentFrame(changed)) else changed
  }

  function AfterFail(e: Engine): Engine
  {
    Halted(e).(phase := Failed)
  }

  function LoopArg(loop: Option<LoopRange>): Option<(Num, Num)>
  {
    if loop.None? then None else Some((Fin(loop.value.start as real), Fin(loop.value.end as real)))
  }

  function PlanFor(e: Engine, frame: int): Plan
  {
    MakePlan(frame as real, e.total as real, LoopArg(e.loop))
  }

  predicate Accepts(e: Engine, g: nat)
  {
    g == e.generation && e.pendingFlush == Some(g)
  }

  /** The acknowledgement of the flush of generation g, before the first tick. */
  function AfterFlushed(e: Engine, g: nat): Engine
  {
    if !Accepts(e, g) then e
    else
      var plan := PlanFor(e, e.anchor);
      e.(pendingFlush := None, plan := Some(plan), word := R.PRIMING, streaming := Some(e.generation), interval := true,
         eof := if plan.streamLength.Some? then Wrap(plan.streamLength.value) else -1, ended := false)
  }

  function Wrap(x: int): int { R.Wrap32.ToInt32(x) }

  /** One tick; `filled` says that every ring holds the minimum or every streamer is at its end. */
  function AfterTick(e: Engine, filled: bool): Engine
  {
    if e.plan.None? || !Active(e) then e
    else
      var started := if e.phase == Priming && filled then e.(word := R.PLAYING, phase := Playing) else e;
      if started.phase == Playing && started.ended then Halted(started).(anchor := e.total, phase := Ended) else started
  }

  /** The timeout of generation g, number i in the list, runs. */
  function AfterTimeout(e: Engine, i: nat): Engine
    requires i < |e.timers|
  {
    var g, rest := e.timers[i], e.timers[..i] + e.timers[i + 1..];
    if e.pendingFlush != Some(g) || !e.node then e.(timers := rest)
    else e.(timers := rest, toWorklet := e.toWorklet + [g])
  }

  /** The frame given to the startFrom of generation g. */
  function Asked(e: Engine, g: nat): int { if g in e.asked then e.asked[g] else 0 }

  // --- The object ------------------------------------------------------------------------

  class StreamEngine {
    const rate: int
    const total: int
    var phase: Phase
    var generation: nat
    var pendingFlush: Option<nat>
    var anchor: int
    var plan: Option<Plan>
    var loop: Option<LoopRange>
    var ctx: bool
    var node: bool
    var interval: bool
    var streaming: Option<nat>
    var word: int
    var readPos: int
    var eof: int
    var ended: bool
    var timers: seq<nat>
    var toWorklet: seq<nat>
    ghost var asked: map<nat, int>

    ghost function Snapshot(): Engine
      reads this
    {
      Engine(rate, total, phase, generation, pendingFlush, anchor, plan, loop, ctx, node, interval, streaming,
             word, readPos, eof, ended, timers, toWorklet, asked)
    }

    method HaltStream()
      modifies this
      ensures Snapshot() == Halted(old(Snapshot()))
    {
      generation := generation + 1;
      pendingFlush := None;
      word := R.STOPPED;
      streaming := None;
      if interval {
        interval := false;
      }
    }

    method StartFrom(frame: int)
      modifies this
      ensures Snapshot() == StartedFrom(old(Snapshot()), frame)
    {
      if !node {
        return;
      }
      HaltStream();
      anchor := frame;
      phase := Priming;
      pendingFlush := Some(generation);
      timers := timers + [generation];
      asked := asked[generation := frame];
    }

    method Current() returns (frame: int)
      ensures frame == CurrentFrame(Snapshot())
    {
      if (phase == Playing || phase == Priming) && plan.Some? {
        return plan.value.SongFrameAt(readPos);
      }
      return anchor;
    }

    method Play()
      modifies this
      ensures Snapshot() == AfterPlay(old(Snapshot()))
    {
      if !ctx || phase == Playing || phase == Priming {
        return;
      }
      if phase == Ended || anchor >= total {
        anchor := 0;
      }
      StartFrom(anchor);
    }

    method Stop()
      modifies this
      ensures Snapshot() == AfterStop(old(Snapshot()))
    {
      if !ctx || phase == Stopped || phase == Ready {
        return;
      }
      var frame := Current();
      HaltStream();
      anchor := frame;
      phase := Stopped;
    }

    method Seek(seconds: real)
      modifies this
      ensures Snapshot() == AfterSeek(old(Snapshot()), seconds)
    {
      if !ctx {
        return;
      }
      var frame := Max(0, Min(FrameAt(rate, seconds), total));
      if phase == Playing || phase == Priming {
        StartFrom(frame);
        return;
      }
      anchor := frame;
      if phase == Ended {
        phase := Stopped;
      }
    }

    method SetLoop(range: Option<(real, real)>) returns (ok: bool)
      modifies this
      ensures ok == (old(ctx) && LoopFor(old(Snapshot()), range).Some?)
      ensures Snapshot() == AfterSetLoop(old(Snapshot()), range)
    {
      if !ctx {
        return false;
      }
      if range.None? {
        loop := None;
      } else {
        var valid := ValidateLoop(Some(RangeFrames(rate, range.value)), total, MIN_LOOP_FRAMES);
        if valid.None? {
          return false;
        }
        loop := valid;
      }
      if phase == Playing || phase == Priming {
        var frame := Current();
        StartFrom(frame);
      }
      return true;
    }

    method Fail()
      modifies this
      ensures Snapshot() == AfterFail(old(Snapshot()))
    {
      HaltStream();
      phase := Failed;
    }

    method OnFlushed(g: nat, filled: bool)
      modifies this
      ensures Snapshot() == if Accepts(old(Snapshot()), g) then AfterTick(AfterFlushed(old(Snapshot()), g), filled)
                            else old(Snapshot())
    {
      if g != generation || pendingFlush != Some(g) {
        return;
      }
      BeginStream();
      Tick(filled);
    }

    /** The worklet's cursor is at zero: the writers, the plan and the streamers start over. */
    method BeginStream()
      requires pendingFlush == Some(generation)
      modifies this
      ensures Snapshot() == AfterFlushed(old(Snapshot()), old(generation))
    {
      pendingFlush := None;
      ResetWriters();
      var p := MakePlan(anchor as real, total as real, LoopArg(loop));
      plan := Some(p);
      if p.streamLength.Some? {
        eof := Wrap(p.streamLength.value);
      }
      Launch();
    }

    method ResetWriters()
      modifies this
      ensures Snapshot() == old(Snapshot()).(eof := -1, ended := false)
    {
      eof, ended := -1, false;
    }

    /** The streamers restart, the rings prime and the interval timer runs. */
    method Launch()
      modifies this
      ensures Snapshot() == old(Snapshot()).(streaming := Some(old(generation)), word := R.PRIMING, interval := true)
    {
      streaming := Some(generation);
      word := R.PRIMING;
      interval := true;
    }

    method Tick(filled: bool)
      modifies this
      ensures Snapshot() == AfterTick(old(Snapshot()), filled)
    {
      if plan.None? || (phase != Priming && phase != Playing) {
        return;
      }
      if phase == Priming && filled {
        word := R.PLAYING;
        phase := Playing;
      }
      if phase == Playing && ended {
        HaltStream();
        anchor := total;
        phase := Ended;
      }
    }

    /** destroy() up to the closing of the audio context. */
    method Destroy()
      modifies this
      ensures Snapshot() == Halted(old(Snapshot())).(node := false)
    {
      HaltStream();
      node := false;
    }

    method OnTimeout(i: nat)
      requires i < |timers|
      modifies this
      ensures Snapshot() == AfterTimeout(old(Snapshot()), i)
    {
      var g := timers[i];
      timers := timers[..i] + timers[i + 1..];
      if pendingFlush != Some(g) || !node {
        return;
      }
      toWorklet := toWorklet + [g];
    }
  }

  // --- The engine among its timers, its port and the audio thread ----------------------------

  /** A stream that was started. */
  datatype Begun = Begun(generation: nat, frame: int, plan: Plan)

  datatype World = World(
    e: Engine, toEngine: seq<nat>,                         // acknowledgements under way
    busy: Option<nat>,                                     // a quantum runs that read PLAYING in this generation
    endedIn: Option<nat>,                                  // the generation whose quantum last set ENDED
    begun: seq<Begun>)

  datatype Act =
    | Play | Stop | Seek(seconds: real) | SetLoop(range: Option<(real, real)>) | Fail
    | Destroy | Destroyed                                  // destroy() up to its await, and after it
    | Timeout(i: nat)
    | HandleFlush                                          // the worklet takes the next message
    | Ack(filled: bool)                                    // the engine takes the next message
    | Tick(filled: bool)                                   // the 50 ms timer, or a streamer's chunk
    | QuantumStarts
    | QuantumEnds(frames: nat, atEnd: bool)

  function Init(rate: int, total: int): World
  {
    World(Engine(rate, total, Ready, 0, None, 0, None, None, true, true, false, None, R.STOPPED, 0, -1, false, [], [], map[]),
          [], None, None, [])
  }

  function Step(w: World, a: Act): World
  {
    match a
    case Play => w.(e := AfterPlay(w.e))
    case Stop => w.(e := AfterStop(w.e))
    case Seek(seconds) => w.(e := AfterSeek(w.e, seconds))
    case SetLoop(range) => w.(e := AfterSetLoop(w.e, range))
    case Fail => w.(e := AfterFail(w.e))
    case Destroy => w.(e := Halted(w.e).(node := false))
    case Destroyed => if w.e.node then w else w.(e := w.e.(ctx := false, phase := Idle))
    case Timeout(i) => if i < |w.e.timers| then w.(e := AfterTimeout(w.e, i)) else w
    case HandleFlush =>
      if w.busy.Some? || w.e.toWorklet == [] then w
      else w.(e := w.e.(toWorklet := w.e.toWorklet[1..], readPos := 0, ended := false), toEngine := w.toEngine + [w.e.toWorklet[0]])
    case Ack(filled) =>
      if w.toEngine == [] then w
      else
        var rest := w.(toEngine := w.toEngine[1..]);
        if !Accepts(w.e, w.toEngine[0]) then rest
        else
          var e := AfterFlushed(w.e, w.toEngine[0]);
          rest.(e := AfterTick(e, filled), begun := w.begun + [Begun(e.generation, Asked(w.e, e.generation), e.plan.value)])
    case Tick(filled) => if w.e.interval then w.(e := AfterTick(w.e, filled)) else w
    case QuantumStarts => if w.busy.None? && w.e.word == R.PLAYING then w.(busy := Some(w.e.generation)) else w
    case QuantumEnds(frames, atEnd) =>
      if w.busy.None? then w
      else if atEnd then w.(e := w.e.(ended := true), endedIn := w.busy, busy := None)
      else w.(e := w.e.(readPos := Wrap(w.e.readPos + frames)), busy := None)
  }

  function Run(rate: int, total: int, acts: seq<Act>): World
  {
    if acts == [] then Init(rate, total) else Step(Run(rate, total, acts[..|acts| - 1]), acts[|acts| - 1])
  }

  // --- What holds between any two events ----------------------------------------------------------

  /** Flushes posted and acknowledgements under way, oldest first. */
  function Flushes(w: World): seq<nat> { w.toEngine + w.e.toWorklet }

  ghost predicate Increasing(s: seq<nat>) { forall i, j :: 0 <= i < j < |s| ==> s[i] < s[j] }

  ghost predicate UpTo(s: seq<nat>, g: nat) { forall x :: x in s ==> x <= g }

  /** Each generation's flush exists once: as a timeout, a message or an answer, in order. */
  ghost predicate PortOk(timers: seq<nat>, flushes: seq<nat>, g: nat)
  {
    && Increasing(timers) && UpTo(timers, g) && Increasing(flushes) && UpTo(flushes, g)
    && forall x :: x in timers ==> x !in flushes
  }

  /** A start under way waits for its flush; a stream that runs has none. */
  ghost predicate PhaseOk(e: Engine)
  {
    && (e.pendingFlush.Some? ==>
          && e.pendingFlush.value == e.generation && e.phase == Priming && e.word == R.STOPPED && e.node
          && e.generation in e.asked && e.asked[e.generation] == e.anchor)
    && (e.word == R.STOPPED || e.word == R.PRIMING || e.word == R.PLAYING)
    && (e.word != R.STOPPED ==>
          && e.pendingFlush.None? && e.node && e.generation in e.asked
          && e.phase == (if e.word == R.PLAYING then Playing else Priming)
          && e.plan == Some(PlanFor(e, e.asked[e.generation])))
    && e.streaming == (if e.word == R.STOPPED then None else Some(e.generation))
    && e.interval == (e.word != R.STOPPED)
    && (e.node ==> e.ctx && (e.phase == Priming ==> e.pendingFlush.Some? || e.word == R.PRIMING)
                   && (e.phase == Playing ==> e.word == R.PLAYING))
  }

  /** The worklet's words belong to the stream that reads them. */
  ghost predicate WordsOk(w: World)
  {
    && (w.e.word == R.PRIMING || w.e.generation in w.toEngine ==> w.busy.None? && w.e.readPos == 0 && !w.e.ended)
    && (w.e.word == R.PLAYING && w.busy.Some? ==> w.busy.value == w.e.generation)
    && (w.e.word == R.PLAYING && w.e.ended ==> w.endedIn == Some(w.e.generation))
  }

  /** The flush a start waits for is on its way, and while a stream runs there is none at all. */
  ghost predicate FlushOk(w: World)
  {
    && (w.e.pendingFlush.Some? <==> w.e.generation in w.e.timers || w.e.generation in Flushes(w))
    && (w.e.word != R.STOPPED ==> Flushes(w) == [])
  }

  ghost predicate BegunOk(w: World, b: Begun)
  {
    b.generation in w.e.asked && b.frame == w.e.asked[b.generation] &&
    exists loop :: b.plan == MakePlan(b.frame as real, w.e.total as real, LoopArg(loop))
  }

  ghost predicate HistoryOk(w: World)
  {
    && (forall g :: g in w.e.asked ==> 0 <= g <= w.e.generation)
    && (forall i :: 0 <= i < |w.begun| ==> BegunOk(w, w.begun[i]) && w.begun[i].generation <= w.e.generation)
    && (w.e.pendingFlush.Some? ==> forall i :: 0 <= i < |w.begun| ==> w.begun[i].generation < w.e.generation)
    && (forall i, j :: 0 <= i < j < |w.begun| ==> w.begun[i].generation < w.begun[j].generation)
  }

  ghost predicate Inv(w: World)
  {
    PortOk(w.e.timers, Flushes(w), w.e.generation) && PhaseOk(w.e) && WordsOk(w) && FlushOk(w) && HistoryOk(w)
  }

  // --- Every event keeps it -------------------------------------------------------------------------

  /** The engine changes nothing but its transport state; all flushes stay where they are. */
  ghost predicate SamePort(e: Engine, e': Engine)
  {
    && e'.rate == e.rate && e'.total == e.total && e'.timers == e.timers && e'.toWorklet == e.toWorklet
    && e'.asked == e.asked && e'.readPos == e.readPos && e'.ended == e.ended
  }

  /** A new generation has no flush yet. */
  lemma NewGeneration(w: World)
    requires PortOk(w.e.timers, Flushes(w), w.e.generation)
    ensures var g := w.e.generation + 1; g !in w.e.timers && g !in w.toEngine && g !in Flushes(w)
    ensures PortOk(w.e.timers, Flushes(w), w.e.generation + 1)
    ensures PortOk(w.e.timers + [w.e.generation + 1], Flushes(w), w.e.generation + 1)
  {
    var g := w.e.generation + 1;
    assert g in w.toEngine ==> g in Flushes(w);
    assert Increasing(w.e.timers + [g]) by {
      assert forall i :: 0 <= i < |w.e.timers| ==> w.e.timers[i] in w.e.timers;
    }
  }

  lemma HaltKeeps(w: World, e: Engine)
    requires Inv(w) && SamePort(w.e, e)
    requires e.generation == w.e.generation + 1 && e.pendingFlush == None
    requires e.word == R.STOPPED && e.streaming == None && !e.interval
    requires e.node ==> w.e.node && e.ctx && !Active(e)
    ensures Inv(w.(e := e))
  {
    NewGeneration(w);
    KeepsHistory(w, e);
    assert Flushes(w.(e := e)) == Flushes(w);
  }

  lemma KeepsHistory(w: World, e: Engine)
    requires HistoryOk(w) && e.total == w.e.total && e.generation >= w.e.generation
    requires e.asked == w.e.asked || (e.generation > w.e.generation && e.asked == w.e.asked[e.generation := e.anchor])
    requires e.pendingFlush.Some? ==> e.generation > w.e.generation || w.e.pendingFlush.Some?
    ensures HistoryOk(w.(e := e))
  {
    forall i | 0 <= i < |w.begun|
      ensures BegunOk(w.(e := e), w.begun[i])
    {
      assert BegunOk(w, w.begun[i]);
    }
  }

  /** startFrom, on an engine whose position or loop was just changed. */
  lemma StartKeeps(w: World, e: Engine, frame: int)
    requires Inv(w) && e == w.e.(anchor := e.anchor, loop := e.loop)
    requires e.node || !Active(e) || e.word == R.STOPPED
    ensures Inv(w.(e := StartedFrom(e, frame)))
  {
    var e' := StartedFrom(e, frame);
    NewGeneration(w);
    if e.node {
      assert e'.asked == w.e.asked[e'.generation := frame];
    }
    KeepsHistory(w, e');
    assert Flushes(w.(e := e')) == Flushes(w);
  }

  /** A change of position, loop or phase while nothing plays. */
  lemma RestKeeps(w: World, e: Engine)
    requires Inv(w) && !Active(w.e) && e == w.e.(anchor := e.anchor, loop := e.loop, phase := e.phase)
    requires !Active(e)
    ensures Inv(w.(e := e))
  {
    KeepsHistory(w, e);
  }

  lemma UserKeeps(w: World, a: Act)
    requires Inv(w) && (a.Play? || a.Stop? || a.Seek? || a.SetLoop? || a.Fail? || a.Destroy? || a.Destroyed?)
    ensures Inv(Step(w, a))
  {
    match a
    case Play =>
      if w.e.ctx && !Active(w.e) {
        var frame := if w.e.phase == Ended || w.e.anchor >= w.e.total then 0 else w.e.anchor;
        StartKeeps(w, w.e.(anchor := frame), frame);
      }
    case Stop =>
      if Step(w, a) != w {
        HaltKeeps(w, AfterStop(w.e));
      }
    case Seek(seconds) =>
      if w.e.ctx {
        if Active(w.e) {
          StartKeeps(w, w.e, SeekFrame(w.e, seconds));
        } else {
          RestKeeps(w, AfterSeek(w.e, seconds));
        }
      }
    case SetLoop(range) =>
      if w.e.ctx && LoopFor(w.e, range).Some? {
        var changed := w.e.(loop := LoopFor(w.e, range).value);
        if Active(changed) {
          StartKeeps(w, changed, CurrentFrame(changed));
        } else {
          RestKeeps(w, changed);
        }
      }
    case Fail => HaltKeeps(w, AfterFail(w.e));
    case Destroy => HaltKeeps(w, Halted(w.e).(node := false));
    case Destroyed => KeepsHistory(w, Step(w, a).e);
  }

  lemma TickKeeps(w: World, filled: bool)
    requires Inv(w) && w.e.interval
    ensures Inv(w.(e := AfterTick(w.e, filled)))
  {
    var e := w.e;
    var started := if e.phase == Priming && filled then e.(word := R.PLAYING, phase := Playing) else e;
    KeepsHistory(w, started);
    assert Inv(w.(e := started));
    if started.phase == Playing && started.ended {
      HaltKeeps(w.(e := started), AfterTick(e, filled));
    }
  }

  lemma WithoutOne(s: seq<nat>, i: nat)
    requires Increasing(s) && i < |s|
    ensures var rest := s[..i] + s[i + 1..];
            Increasing(rest) && s[i] !in rest && forall x :: x in rest <==> x in s && x != s[i]
  {
    var rest := s[..i] + s[i + 1..];
    assert s == s[..i] + [s[i]] + s[i + 1..];
    forall x | x in s && x != s[i]
      ensures x in rest
    {
      var k :| 0 <= k < |s| && s[k] == x;
      assert rest[if k < i then k else k - 1] == x;
    }
  }

  lemma WithOneMore(s: seq<nat>, g: nat)
    requires Increasing(s) && UpTo(s, g) && g !in s
    ensures Increasing(s + [g]) && UpTo(s + [g], g)
  {
    assert forall k :: 0 <= k < |s| ==> s[k] in s;
  }

  lemma TimeoutKeeps(w: World, i: nat)
    requires Inv(w) && i < |w.e.timers|
    ensures Inv(w.(e := AfterTimeout(w.e, i)))
  {
    var e := AfterTimeout(w.e, i);
    WithoutOne(w.e.timers, i);
    KeepsHistory(w, e);
    if e.toWorklet == w.e.toWorklet {
      assert Flushes(w.(e := e)) == Flushes(w);
    } else {
      assert Flushes(w.(e := e)) == Flushes(w) + [w.e.generation];
      WithOneMore(Flushes(w), w.e.generation);
    }
  }

  lemma HandleKeeps(w: World)
    requires Inv(w) && w.busy.None? && w.e.toWorklet != []
    ensures Inv(Step(w, HandleFlush))
  {
    var w' := Step(w, HandleFlush);
    assert Flushes(w') == Flushes(w);
    KeepsHistory(w, w'.e);
  }

  lemma AckKeeps(w: World, filled: bool)
    requires Inv(w) && w.toEngine != []
    ensures Inv(Step(w, Ack(filled)))
  {
    var g := w.toEngine[0];
    if Accepts(w.e, g) {
      AcceptKeeps(w, g);
      TickKeeps(Accepted(w, g), filled);
    } else {
      RefuseKeeps(w);
    }
  }

  function Accepted(w: World, g: nat): World
  {
    var e := AfterFlushed(w.e, g);
    World(e, if w.toEngine == [] then [] else w.toEngine[1..], w.busy, w.endedIn,
          if e.plan.Some? then w.begun + [Begun(e.generation, Asked(w.e, e.generation), e.plan.value)] else w.begun)
  }

  /** The answer to the newest flush is the last one: nothing is behind it on the port. */
  lemma NewestIsAlone(w: World)
    requires PortOk(w.e.timers, Flushes(w), w.e.generation) && w.toEngine != [] && w.toEngine[0] == w.e.generation
    ensures w.toEngine == [w.e.generation] && w.e.toWorklet == []
  {
    var f := Flushes(w);
    var last := f[|f| - 1];
    assert f[0] == w.e.generation && last in f;
  }

  lemma AcceptKeepsHistory(w: World, g: nat)
    requires HistoryOk(w) && PhaseOk(w.e) && Accepts(w.e, g)
    ensures HistoryOk(Accepted(w, g))
  {
    var w' := Accepted(w, g);
    forall i | 0 <= i < |w'.begun|
      ensures BegunOk(w', w'.begun[i])
    {
      if i < |w.begun| {
        assert BegunOk(w, w.begun[i]);
      }
    }
  }

  lemma AcceptKeeps(w: World, g: nat)
    requires Inv(w) && w.toEngine != [] && w.toEngine[0] == g && Accepts(w.e, g)
    ensures Inv(Accepted(w, g))
  {
    NewestIsAlone(w);
    AcceptKeepsHistory(w, g);
    assert Flushes(Accepted(w, g)) == [];
  }

  lemma RefuseKeeps(w: World)
    requires Inv(w) && w.toEngine != [] && !Accepts(w.e, w.toEngine[0])
    ensures Inv(w.(toEngine := w.toEngine[1..]))
  {
    var w' := w.(toEngine := w.toEngine[1..]);
    WithoutOne(Flushes(w), 0);
    assert Flushes(w') == Flushes(w)[..0] + Flushes(w)[1..];
    assert Flushes(w)[0] == w.toEngine[0];
    forall i | 0 <= i < |w'.begun|
      ensures BegunOk(w', w'.begun[i])
    {
      assert BegunOk(w, w.begun[i]);
    }
  }

  lemma QuantumStartKeeps(w: World)
    requires Inv(w)
    ensures Inv(Step(w, QuantumStarts))
  {
    var w' := Step(w, QuantumStarts);
    assert Flushes(w') == Flushes(w);
    forall i | 0 <= i < |w'.begun|
      ensures BegunOk(w', w'.begun[i])
    {
      assert BegunOk(w, w.begun[i]);
    }
  }

  lemma QuantumEndKeeps(w: World, frames: nat, atEnd: bool)
    requires Inv(w)
    ensures Inv(Step(w, QuantumEnds(frames, atEnd)))
  {
    var w' := Step(w, QuantumEnds(frames, atEnd));
    assert Flushes(w') == Flushes(w);
    forall i | 0 <= i < |w'.begun|
      ensures BegunOk(w', w'.begun[i])
    {
      assert BegunOk(w, w.begun[i]);
    }
  }

  lemma StepKeeps(w: World, a: Act)
    requires Inv(w)
    ensures Inv(Step(w, a))
  {
    match a
    case Timeout(i) =>
      if i < |w.e.timers| {
        TimeoutKeeps(w, i);
      }
    case HandleFlush =>
      if w.busy.None? && w.e.toWorklet != [] {
        HandleKeeps(w);
      }
    case Ack(filled) =>
      if w.toEngine != [] {
        AckKeeps(w, filled);
      }
    case Tick(filled) =>
      if w.e.interval {
        TickKeeps(w, filled);
      }
    case QuantumStarts => QuantumStartKeeps(w);
    case QuantumEnds(frames, atEnd) => QuantumEndKeeps(w, frames, atEnd);
    case _ => UserKeeps(w, a);
  }

  lemma {:induction false} EveryRunKeeps(rate: int, total: int, acts: seq<Act>)
    ensures Inv(Run(rate, total, acts))
  {
    if acts != [] {
      EveryRunKeeps(rate, total, acts[..|acts| - 1]);
      StepKeeps(Run(rate, total, acts[..|acts| - 1]), acts[|acts| - 1]);
    }
  }

  // --- What the handshake guarantees ---------------------------------------------------------------

  /** While the shared state is PRIMING or PLAYING no flush, and no answer to one, is on its way. */
  lemma NoFlushUnderAStream(rate: int, total: int, acts: seq<Act>)
    requires Run(rate, total, acts).e.word != R.STOPPED
    ensures Run(rate, total, acts).e.toWorklet == [] && Run(rate, total, acts).toEngine == []
    ensures Run(rate, total, acts).e.pendingFlush == None
  {
    EveryRunKeeps(rate, total, acts);
    assert Flushes(Run(rate, total, acts)) == [];
  }

  /** Stale answers start nothing, and each generation starts at most one stream, in order. */
  lemma StaleAnswersStartNothing(rate: int, total: int, acts: seq<Act>, filled: bool)
    requires Run(rate, total, acts).toEngine != []
    ensures var w := Run(rate, total, acts);
            var w' := Step(w, Ack(filled));
            if w.toEngine[0] == w.e.generation
            then |w'.begun| == |w.begun| + 1 && w'.begun[|w.begun|].generation == w.e.generation
                 && forall i :: 0 <= i < |w.begun| ==> w.begun[i].generation < w.e.generation
            else w' == w.(toEngine := w.toEngine[1..])
  {
    var w := Run(rate, total, acts);
    EveryRunKeeps(rate, total, acts);
    assert w.toEngine[0] in Flushes(w);
  }

  /** Every stream plays the frame its generation's startFrom was given, with the loop then set. */
  lemma StreamsStartWhereAsked(rate: int, total: int, acts: seq<Act>, i: nat)
    requires i < |Run(rate, total, acts).begun|
    ensures var w := Run(rate, total, acts); var b := w.begun[i];
            && b.generation in w.e.asked && b.frame == w.e.asked[b.generation]
            && exists loop :: b.plan == MakePlan(b.frame as real, w.e.total as real, LoopArg(loop))
  {
    EveryRunKeeps(rate, total, acts);
    assert BegunOk(Run(rate, total, acts), Run(rate, total, acts).begun[i]);
  }

  /** The stream that runs follows the loop now set, from the frame asked for last. */
  lemma RunningPlan(rate: int, total: int, acts: seq<Act>)
    requires Run(rate, total, acts).e.word != R.STOPPED
    ensures var e := Run(rate, total, acts).e;
            && e.generation in e.asked && e.plan == Some(MakePlan(e.asked[e.generation] as real, e.total as real, LoopArg(e.loop)))
            && (0 <= e.asked[e.generation] < e.total ==> e.plan.value.SongFrameAt(0) == e.asked[e.generation])
  {
    EveryRunKeeps(rate, total, acts);
    var e := Run(rate, total, acts).e;
    MakePlanIsValid(e.asked[e.generation] as real, e.total as real, LoopArg(e.loop));
  }

  /** A seek while music plays or primes is what the next stream answers to. */
  lemma SeekAsks(w: World, seconds: real)
    requires Inv(w) && Active(w.e) && w.e.node
    ensures var w' := Step(w, Seek(seconds));
            && w'.e.pendingFlush == Some(w'.e.generation) && w'.e.generation == w.e.generation + 1
            && w'.e.asked[w'.e.generation] == SeekFrame(w.e, seconds) && 0 <= SeekFrame(w.e, seconds)
  {
  }

  /** A start that waits always has its flush on the way; delivering it starts the stream. */
  lemma PendingStartsAreServed(rate: int, total: int, acts: seq<Act>)
    requires Run(rate, total, acts).e.pendingFlush.Some?
    ensures var w := Run(rate, total, acts); w.e.generation in w.e.timers || w.e.generation in w.toEngine + w.e.toWorklet
  {
    EveryRunKeeps(rate, total, acts);
  }

  lemma QuietPortStarts(w: World, filled: bool)
    requires Inv(w) && w.e.pendingFlush.Some? && w.e.timers == [w.e.generation] && Flushes(w) == [] && w.busy.None?
    ensures var w' := Step(Step(Step(w, Timeout(0)), HandleFlush), Ack(filled));
            && w'.e.word == (if filled then R.PLAYING else R.PRIMING) && w'.e.readPos == 0 && w'.e.asked == w.e.asked
            && w'.e.plan == Some(PlanFor(w.e, w.e.asked[w.e.generation]))
  {
    assert w.toEngine == [] && w.e.toWorklet == [];
    FlushTravels(w);
    AnswerStarts(Step(Step(w, Timeout(0)), HandleFlush), filled);
  }

  lemma FlushTravels(w: World)
    requires PhaseOk(w.e) && w.e.pendingFlush.Some? && w.e.timers == [w.e.generation] && w.busy.None?
    requires w.toEngine == [] && w.e.toWorklet == []
    ensures Step(Step(w, Timeout(0)), HandleFlush)
         == w.(e := w.e.(timers := [], toWorklet := [], readPos := 0, ended := false), toEngine := [w.e.generation])
  {
    var w1 := Step(w, Timeout(0));
    assert w1.e == w.e.(timers := [], toWorklet := [w.e.generation]);
  }

  lemma AnswerStarts(w: World, filled: bool)
    requires w.toEngine == [w.e.generation] && w.e.pendingFlush == Some(w.e.generation) && w.e.phase == Priming
    ensures var w' := Step(w, Ack(filled));
            && w'.e.word == (if filled then R.PLAYING else R.PRIMING) && w'.e.readPos == w.e.readPos && w'.e.asked == w.e.asked
            && w'.e.plan == Some(PlanFor(w.e, w.e.anchor))
  {
  }

  /** Playback ends only on the word of a quantum of its own generation. */
  lemma EndBelongsToTheStream(rate: int, total: int, acts: seq<Act>, a: Act)
    requires var w := Run(rate, total, acts); w.e.phase != Ended && Step(w, a).e.phase == Ended
    ensures var w := Run(rate, total, acts);
            w.endedIn == Some(w.e.generation) && w.e.word == R.PLAYING && Step(w, a).e.anchor == w.e.total
  {
    var w := Run(rate, total, acts);
    EveryRunKeeps(rate, total, acts);
    match a
    case Tick(filled) => TickEnds(w, filled);
    case Ack(filled) =>
      if w.toEngine != [] && Accepts(w.e, w.toEngine[0]) {
        FreshStreamGoesOn(AfterFlushed(w.e, w.toEngine[0]), filled);
      }
    case _ => OthersNeverEnd(w, a);
  }

  lemma TickEnds(w: World, filled: bool)
    requires Inv(w) && w.e.interval && w.e.phase != Ended && AfterTick(w.e, filled).phase == Ended
    ensures w.endedIn == Some(w.e.generation) && w.e.word == R.PLAYING && AfterTick(w.e, filled).anchor == w.e.total
  {
  }

  lemma FreshStreamGoesOn(e: Engine, filled: bool)
    requires !e.ended && e.phase != Ended
    ensures AfterTick(e, filled).phase != Ended
  {
  }

  lemma OthersNeverEnd(w: World, a: Act)
    requires w.e.phase != Ended && !a.Tick? && !a.Ack?
    ensures Step(w, a).e.phase != Ended
  {
  }

  // --- Where it stops short ---------------------------------------------------------------------------

  /** What happens by itself while a start waits: timers, messages, quanta. */
  predicate ByItself(a: Act)
  {
    a.Timeout? || a.HandleFlush? || a.Ack? || a.Tick? || a.QuantumStarts? || a.QuantumEnds?
  }

  function Steps(w: World, acts: seq<Act>): World
  {
    if acts == [] then w else Step(Steps(w, acts[..|acts| - 1]), acts[|acts| - 1])
  }

  /** A start that waited and still waits: only its timers, messages and the worklet's words moved. */
  predicate SameStart(e: Engine, e': Engine)
  {
    e' == e.(timers := e'.timers, toWorklet := e'.toWorklet, readPos := e'.readPos, ended := e'.ended)
  }

  lemma OneWait(w: World, a: Act)
    requires ByItself(a) && PhaseOk(w.e)
    ensures var w' := Step(w, a);
            if w.e.pendingFlush.None? then w'.e.pendingFlush.None?
            else if w'.e.pendingFlush.Some? then SameStart(w.e, w'.e) else true
  {
  }

  lemma {:induction false} StillWaiting(w: World, acts: seq<Act>)
    requires Inv(w) && w.e.pendingFlush.Some? && forall i :: 0 <= i < |acts| ==> ByItself(acts[i])
    ensures Inv(Steps(w, acts))
    ensures Steps(w, acts).e.pendingFlush.Some? ==> SameStart(w.e, Steps(w, acts).e)
  {
    if acts != [] {
      var init, last := acts[..|acts| - 1], acts[|acts| - 1];
      StillWaiting(w, init);
      StepKeeps(Steps(w, init), last);
      OneWait(Steps(w, init), last);
    }
  }

  /** A seek while music plays or primes, then any timers, messages and quanta, then a loop while the
      seek's flush is still unanswered: the new start is asked for where the old plan's stream stands
      by now, or at the seek's frame when there was no plan yet. The seek survives exactly then, or
      when both are the same frame. */
  lemma SetLoopForgetsTheSeek(w: World, seconds: real, between: seq<Act>, range: Option<(real, real)>)
    requires Inv(w) && Active(w.e) && w.e.node && LoopFor(w.e, range).Some?
    requires forall i :: 0 <= i < |between| ==> ByItself(between[i])
    requires Steps(Step(w, Seek(seconds)), between).e.pendingFlush.Some?
    ensures var w2 := Steps(Step(w, Seek(seconds)), between); var w3 := Step(w2, SetLoop(range));
            && w2.e.plan == w.e.plan && w3.e.pendingFlush == Some(w.e.generation + 2)
            && Asked(w3.e, w.e.generation + 1) == SeekFrame(w.e, seconds)
            && (Asked(w3.e, w.e.generation + 2) == SeekFrame(w.e, seconds) <==>
                w.e.plan.None? || w.e.plan.value.SongFrameAt(w2.e.readPos) == SeekFrame(w.e, seconds))
  {
    SeekWaits(w, seconds, between);
    SeekThenLoop(w.e, SeekFrame(w.e, seconds), Steps(Step(w, Seek(seconds)), between).e, range);
  }

  lemma SeekWaits(w: World, seconds: real, between: seq<Act>)
    requires Inv(w) && Active(w.e) && w.e.node
    requires forall i :: 0 <= i < |between| ==> ByItself(between[i])
    requires Steps(Step(w, Seek(seconds)), between).e.pendingFlush.Some?
    ensures w.e.ctx && SameStart(StartedFrom(w.e, SeekFrame(w.e, seconds)), Steps(Step(w, Seek(seconds)), between).e)
  {
    var w1 := Step(w, Seek(seconds));
    assert w1.e == StartedFrom(w.e, SeekFrame(w.e, seconds));
    StepKeeps(w, Seek(seconds));
    StillWaiting(w1, between);
  }

  lemma SeekThenLoop(e0: Engine, frame: int, e: Engine, range: Option<(real, real)>)
    requires e0.ctx && e0.node && Active(e0) && LoopFor(e0, range).Some? && SameStart(StartedFrom(e0, frame), e)
    ensures var e' := AfterSetLoop(e, range);
            && e.plan == e0.plan && e'.pendingFlush == Some(e0.generation + 2)
            && Asked(e', e0.generation + 1) == frame
            && Asked(e', e0.generation + 2) == if e0.plan.None? then frame else e0.plan.value.SongFrameAt(e.readPos)
  {
    assert LoopFor(e, range) == LoopFor(e0, range);
    LoopWhileWaiting(e, range);
  }

  lemma LoopWhileWaiting(e: Engine, range: Option<(real, real)>)
    requires e.ctx && e.node && Active(e) && LoopFor(e, range).Some?
    ensures var e' := AfterSetLoop(e, range);
            && e'.pendingFlush == Some(e.generation + 1)
            && e'.asked == e.asked[e.generation + 1 := if e.plan.None? then e.anchor else e.plan.value.SongFrameAt(e.readPos)]
  {
    var changed := e.(loop := LoopFor(e, range).value);
    assert AfterSetLoop(e, range) == StartedFrom(changed, CurrentFrame(changed));
  }

  /** The position shown, and the frame a stop or a loop starts from, is the frame heard exactly when
      the read word stands for the true counter. */
  lemma CurrentFrameIsHeardExactlyWhen(e: Engine, r: nat)
    requires Active(e) && e.plan.Some? && PlayPlan.Valid(e.plan.value) && e.readPos == Wrap(r)
    ensures CurrentFrame(e) == e.plan.value.SongFrameAt(r) <==> ShownTruly(e.plan.value, r)
    ensures r < R.Wrap32.TWO31 ==> CurrentFrame(e) == e.plan.value.SongFrameAt(r)
    ensures e.ctx && e.phase == Playing ==> AfterStop(e).anchor == CurrentFrame(e)
  {
    PositionIsTrueExactlyWhen(e.plan.value, r);
  }

  /** When the worklet has taken the flush in between, that is the first frame of the old plan. */
  lemma FlushedSeekGoesBack(w: World, seconds: real)
    requires Inv(w) && Active(w.e) && w.e.node && w.e.timers == [] && Flushes(w) == [] && w.busy.None?
    ensures var w2 := Steps(Step(w, Seek(seconds)), [Timeout(0), HandleFlush]);
            w2.e.pendingFlush.Some? && w2.e.readPos == 0
  {
    var w1 := Step(w, Seek(seconds));
    assert w.toEngine == [] && w.e.toWorklet == [];
    assert [Timeout(0), HandleFlush][..1] == [Timeout(0)] && [Timeout(0)][..0] == [];
    assert Steps(w1, [Timeout(0)]) == Step(w1, Timeout(0));
    FlushTravels(w1);
  }

  // --- Listeners ------------------------------------------------------------------------------------------

  /** What a listener may call while it is being told of a state. */
  predicate IsCall(a: Act) { a.Play? || a.Stop? || a.Seek? || a.SetLoop? || a.Fail? || a.Destroy? }

  predicate AreCalls(calls: seq<Act>) { forall i :: 0 <= i < |calls| ==> IsCall(calls[i]) }

  function Called(e: Engine, a: Act): Engine
  {
    match a
    case Play => AfterPlay(e)
    case Stop => AfterStop(e)
    case Seek(seconds) => AfterSeek(e, seconds)
    case SetLoop(range) => AfterSetLoop(e, range)
    case Fail => AfterFail(e)
    case Destroy => Halted(e).(node := false)
    case _ => e
  }

  function AllCalled(e: Engine, calls: seq<Act>): Engine
  {
    if calls == [] then e else Called(AllCalled(e, calls[..|calls| - 1]), calls[|calls| - 1])
  }

  /** startFrom up to the listeners, who are told of 'priming'. */
  function Announcing(e: Engine, frame: int): Engine
  {
    Halted(e).(anchor := frame, phase := Priming, asked := e.asked[e.generation + 1 := frame])
  }

  /** startFrom with what its listeners call: the generation it waits for is read after them. */
  function StartedAmong(e: Engine, frame: int, calls: seq<Act>): Engine
  {
    var e2 := AllCalled(Announcing(e, frame), calls);
    e2.(pendingFlush := Some(e2.generation), timers := e2.timers + [e2.generation])
  }

  /** Silent listeners change nothing. */
  lemma SilentListeners(e: Engine, frame: int)
    requires e.node
    ensures StartedAmong(e, frame, []) == StartedFrom(e, frame)
  {
  }

  /** After a call that took effect the engine has ended, lost its node, or waits already. */
  predicate Disturbed(e: Engine)
  {
    e.phase != Priming || !e.node || (e.pendingFlush == Some(e.generation) && e.generation in e.timers)
  }

  lemma CallDisturbs(e: Engine, a: Act)
    requires IsCall(a) && e.phase == Priming && e.ctx && e.node && e.pendingFlush.None?
    ensures var e' := Called(e, a); e'.generation >= e.generation && (e' == e || (e'.generation > e.generation && Disturbed(e')))
  {
  }

  lemma StaysDisturbed(e: Engine, a: Act)
    requires IsCall(a) && Disturbed(e)
    ensures var e' := Called(e, a); e'.generation >= e.generation && Disturbed(e')
  {
  }

  lemma {:induction false} CallsDisturb(e: Engine, calls: seq<Act>)
    requires AreCalls(calls) && e.phase == Priming && e.ctx && e.node && e.pendingFlush.None?
    ensures var e' := AllCalled(e, calls); e' == e || (e'.generation > e.generation && Disturbed(e'))
  {
    if calls != [] {
      var init, last := calls[..|calls| - 1], calls[|calls| - 1];
      CallsDisturb(e, init);
      var e1 := AllCalled(e, init);
      if e1 == e {
        CallDisturbs(e, last);
      } else {
        StaysDisturbed(e1, last);
      }
    }
  }

  /** Among listeners who call something on 'priming', the handshake survives exactly when none of
      their calls takes effect: neither a stop, a failure nor another start, only a play, which is
      ignored, or a loop that is refused. */
  lemma ListenersKeepTheHandshakeExactlyWhen(w: World, frame: int, calls: seq<Act>)
    requires Inv(w) && w.e.node && AreCalls(calls)
    ensures Inv(w.(e := StartedAmong(w.e, frame, calls))) <==>
            AllCalled(Announcing(w.e, frame), calls).generation == w.e.generation + 1
  {
    var e1 := Announcing(w.e, frame);
    CallsDisturb(e1, calls);
    var e2 := AllCalled(e1, calls);
    if e2 == e1 {
      SilentListeners(w.e, frame);
      StartKeeps(w, w.e, frame);
    } else if e2.phase == Priming && e2.node {
      TwiceIsNotOrdered(e2.timers, e2.generation);
    }
  }

  lemma TwiceIsNotOrdered(timers: seq<nat>, g: nat)
    requires g in timers
    ensures !Increasing(timers + [g])
  {
    var i :| 0 <= i < |timers| && timers[i] == g;
    assert (timers + [g])[i] == (timers + [g])[|timers|];
  }

  /** Which calls take effect there. */
  lemma CallTakesEffectExactlyWhen(w: World, frame: int, a: Act)
    requires Inv(w) && w.e.node && IsCall(a)
    ensures var e1 := Announcing(w.e, frame);
            Called(e1, a).generation == e1.generation <==> a.Play? || (a.SetLoop? && LoopFor(w.e, a.range).None?)
  {
    var e1 := Announcing(w.e, frame);
    if a.SetLoop? {
      assert LoopFor(e1, a.range) == LoopFor(w.e, a.range);
    }
  }

  /** tick up to the listeners, who are told of 'playing', and after them. */
  function TickStarts(e: Engine, filled: bool): Engine
  {
    if e.plan.Some? && e.phase == Priming && filled then e.(word := R.PLAYING, phase := Playing) else e
  }

  function TickEnded(e: Engine): Engine
  {
    if e.phase == Playing && e.ended then Halted(e).(anchor := e.total, phase := Ended) else e
  }

  /** Told of 'playing', in the middle of a tick, listeners may call what they like. */
  lemma PlayingListenersMayCall(w: World, filled: bool, calls: seq<Act>)
    requires Inv(w) && w.e.interval && AreCalls(calls)
    ensures Inv(w.(e := TickEnded(AllCalled(TickStarts(w.e, filled), calls))))
    ensures TickEnded(AllCalled(TickStarts(w.e, filled), [])) == AfterTick(w.e, filled)
  {
    var w1 := w.(e := TickStarts(w.e, filled));
    KeepsHistory(w, w1.e);
    assert Flushes(w1) == Flushes(w);
    assert Inv(w1);
    CallsKeep(w1, calls);
    var w2 := w1.(e := AllCalled(w1.e, calls));
    if w2.e.phase == Playing && w2.e.ended {
      HaltKeeps(w2, TickEnded(w2.e));
    }
  }

  lemma {:induction false} CallsKeep(w: World, calls: seq<Act>)
    requires Inv(w) && AreCalls(calls)
    ensures Inv(w.(e := AllCalled(w.e, calls)))
  {
    if calls != [] {
      var init, last := calls[..|calls| - 1], calls[|calls| - 1];
      CallsKeep(w, init);
      var w1 := w.(e := AllCalled(w.e, init));
      UserKeeps(w1, last);
      assert Step(w1, last) == w1.(e := Called(w1.e, last));
    }
  }

  /** What goes wrong: a listener who seeks leaves a flush on its way under a started stream. */
  lemma ListenersMustNotSeek(w: World, frame: int, seconds: real, filled: bool)
    requires Inv(w) && w.e.node && w.e.timers == [] && Flushes(w) == [] && w.busy.None?
    ensures var w0 := w.(e := StartedAmong(w.e, frame, [Seek(seconds)]));
            var w' := Step(Step(Step(Step(w0, Timeout(0)), Timeout(0)), HandleFlush), Ack(filled));
            w'.e.toWorklet == [w'.e.generation] && (w'.e.word == R.PRIMING || w'.e.word == R.PLAYING)
  {
    assert w.toEngine == [] && w.e.toWorklet == [];
    var g := w.e.generation + 2;
    assert [Seek(seconds)][..0] == [];
    var w0 := w.(e := StartedAmong(w.e, frame, [Seek(seconds)]));
    assert AllCalled(Announcing(w.e, frame), []) == Announcing(w.e, frame);
    assert w0.e.timers == [g, g] && w0.e.pendingFlush == Some(g) && w0.e.generation == g && w0.e.node;
    var w1 := Step(w0, Timeout(0));
    assert w1.e.timers == [g] && w1.e.toWorklet == [g] && w1.e == w0.e.(timers := [g], toWorklet := [g]);
    var w2 := Step(w1, Timeout(0));
    assert w2.e == w0.e.(timers := [], toWorklet := [g, g]);
    SecondFlushLeft(w2, g, filled);
  }

  lemma SecondFlushLeft(w: World, g: nat, filled: bool)
    requires w.e.toWorklet == [g, g] && w.toEngine == [] && w.busy.None?
    requires w.e.pendingFlush == Some(g) && w.e.generation == g && w.e.phase == Priming
    ensures var w' := Step(Step(w, HandleFlush), Ack(filled));
            w'.e.toWorklet == [w'.e.generation] && (w'.e.word == R.PRIMING || w'.e.word == R.PLAYING)
  {
    var w3 := Step(w, HandleFlush);
    assert w3.toEngine == [g] && w3.e.toWorklet == [g] && !w3.e.ended;
  }
}
