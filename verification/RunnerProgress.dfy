/**
 How far along a leased job is: the runner's progress bands (agent.go, process),
 the heartbeats that carry them, and what the job row makes of them. Heartbeats
 run beside the work, and may be delayed, repeated or lost on the way.
 */
module RunnerProgress {
  import opened Prelude
  import opened Stages
  import opened Tables
  import L = Leases

  /** The bands of a lease, as fractions. */
  datatype Bands = Bands(sep: real, conv: real, up: real, tr: real)

  function BandsOf(transcribe: bool): Bands
  {
    if transcribe then Bands(0.45, 0.52, 0.58, 0.60) else Bands(0.85, 0.93, 0.99, 0.0)
  }

  /** progress.Store(int64(x * 1000)), truncating toward zero. */
  function Milli(x: real): int { if x >= 0.0 then (x * 1000.0).Floor else -((-x * 1000.0).Floor) }

  /** The steps of process(). */
  datatype Pc = AtSource | AtSeparation | AtConversion | AtUpload(i: nat) | Announced | AtTranscription | Delivered

  /** The heartbeat goroutine: it loads the progress first, the stage after. */
  datatype Beat = Quiet | Loaded(milli: int)

  datatype Heartbeat = Heartbeat(milli: int, transcribing: bool)

  /** The job row as the user sees it. */
  datatype Row = Row(progress: int, message: Message)

  /** `sent`: heartbeats sent, in order; `arrived`: those the server has applied, in that order. */
  datatype World = World(pc: Pc, milli: int, stage: bool, beat: Beat, sent: seq<Heartbeat>, arrived: seq<Heartbeat>, row: Row)

  datatype Act =
    | Downloaded
    | Separates(p: real)
    | Separated
    | Converted
    | Uploaded
    | Announce                                            // stage.Store
    | Transcribes                                         // progress.Store(band.tr)
    | Reports(f: real)
    | Finished
    | LoadProgress
    | LoadStage
    | Arrives(k: nat)

  /** What a lease says: whether it transcribes, whether it has URLs for the artefacts, its stems. */
  datatype Setup = Setup(transcribe: bool, artifacts: bool, stems: nat)

  function Store(w: World, x: real, pc: Pc): World { w.(milli := Milli(x), pc := pc) }

  /** The server applies a heartbeat: the row only moves forward. */
  function Shown(row: Row, h: Heartbeat): Row
  {
    var p := StageProgress(Separating, h.milli as real / 1000.0);
    if p <= row.progress then row
    else Row(p, if h.transcribing then Transcribing else Caption(Separating, p))
  }

  function WorkStep(c: Setup, w: World, a: Act): World
  {
    var b := BandsOf(c.transcribe);
    match a
    case Downloaded => if w.pc == AtSource then w.(milli := 50, pc := AtSeparation) else w
    case Separates(p) => if w.pc == AtSeparation then Store(w, 0.05 + b.sep * p, AtSeparation) else w
    case Separated => if w.pc == AtSeparation then Store(w, 0.05 + b.sep, AtConversion) else w
    case Converted => if w.pc == AtConversion then Store(w, b.conv, AtUpload(0)) else w
    case Uploaded =>
      if w.pc.AtUpload? && w.pc.i < c.stems
      then Store(w, b.conv + (b.up - b.conv) * ((w.pc.i + 1) as real / c.stems as real), AtUpload(w.pc.i + 1)) else w
    case Announce => if w.pc.AtUpload? && w.pc.i >= c.stems && c.transcribe && c.artifacts then w.(stage := true, pc := Announced) else w
    case Transcribes => if w.pc == Announced then Store(w, b.tr, AtTranscription) else w
    case Reports(f) => if w.pc == AtTranscription then Store(w, b.tr + (0.93 - b.tr) * f, AtTranscription) else w
    case Finished =>
      if w.pc == AtTranscription then w.(milli := 990, pc := Delivered)
      else if w.pc.AtUpload? && w.pc.i >= c.stems && !(c.transcribe && c.artifacts) then w.(pc := Delivered) else w
    case _ => w
  }

  function Step(c: Setup, w: World, a: Act): World
  {
    match a
    case LoadProgress => if w.beat == Quiet then w.(beat := Loaded(w.milli)) else w
    case LoadStage => if w.beat.Loaded? then w.(beat := Quiet, sent := w.sent + [Heartbeat(w.beat.milli, w.stage)]) else w
    case Arrives(k) => if k < |w.sent| then w.(row := Shown(w.row, w.sent[k]), arrived := w.arrived + [w.sent[k]]) else w
    case _ => WorkStep(c, w, a)
  }

  /** Just claimed. */
  const START := World(AtSource, 0, false, Quiet, [], [], Row(28, Caption(Separating, 28)))

  function Run(c: Setup, acts: seq<Act>): World
  {
    if acts == [] then START else Step(c, Run(c, acts[..|acts| - 1]), acts[|acts| - 1])
  }

  /** The tools report fractions. */
  predicate Fraction(a: Act)
  {
    (a.Separates? ==> 0.0 <= a.p <= 1.0) && (a.Reports? ==> 0.0 <= a.f <= 1.0)
  }

  predicate Fractions(acts: seq<Act>) { forall i :: 0 <= i < |acts| ==> Fraction(acts[i]) }

  // --- The row is the server's --------------------------------------------------------

  /** While the lease is active and its job separating, a heartbeat does to the row and its log
      exactly what Shown says. */
  lemma HeartbeatShows(db: Db, l: LeaseId, runner: RunnerId, h: Heartbeat, ttl: int, now: int)
    requires L.HeartbeatError(db, l, runner) == NoError
    ensures var id := db.leases[l].job;
            var db' := L.AfterHeartbeat(db, l, runner, h.milli as real / 1000.0, h.transcribing, ttl, now);
            forall message ::
              var row := Row(db.jobs[id].progress, message);
              && db'.jobs[id].progress == Shown(row, h).progress && db'.jobs[id].status == Separating
              && Log(db', id) == if Shown(row, h) == row then Log(db, id)
                                 else Log(db, id) + [Event(db.nextEvent, Separating, Shown(row, h).progress, Shown(row, h).message, now)]
  {
    StageProgressInBand(Separating, h.milli as real / 1000.0);
  }

  // --- What every run keeps --------------------------------------------------------------

  function Progress(h: Heartbeat): int { StageProgress(Separating, h.milli as real / 1000.0) }

  /** The highest progress among the heartbeats that arrived, from the start of the band. */
  function Highest(arrived: seq<Heartbeat>): int
  {
    if arrived == [] then 28 else Max(Highest(arrived[..|arrived| - 1]), Progress(arrived[|arrived| - 1]))
  }

  /** What the arrivals make of the row. */
  function RowOf(arrived: seq<Heartbeat>): Row
  {
    if arrived == [] then START.row else Shown(RowOf(arrived[..|arrived| - 1]), arrived[|arrived| - 1])
  }

  ghost predicate RowIsTrue(w: World)
  {
    w.row == RowOf(w.arrived) && forall i :: 0 <= i < |w.arrived| ==> w.arrived[i] in w.sent
  }

  lemma ArrivalIsShown(c: Setup, w: World, k: nat)
    requires RowIsTrue(w) && k < |w.sent|
    ensures RowIsTrue(Step(c, w, Arrives(k)))
  {
    var w' := Step(c, w, Arrives(k));
    assert w'.arrived[..|w'.arrived| - 1] == w.arrived;
  }

  lemma WorkShowsNothing(c: Setup, w: World, a: Act)
    ensures var w' := WorkStep(c, w, a); w'.row == w.row && w'.arrived == w.arrived && w'.sent == w.sent && w'.beat == w.beat
  {
  }

  lemma StepShows(c: Setup, w: World, a: Act)
    requires RowIsTrue(w)
    ensures RowIsTrue(Step(c, w, a))
  {
    match a
    case LoadProgress =>
    case LoadStage =>
    case Arrives(k) => if k < |w.sent| { ArrivalIsShown(c, w, k); }
    case _ => WorkShowsNothing(c, w, a);
  }

  lemma {:induction false} RowIsOfArrivals(c: Setup, acts: seq<Act>)
    ensures RowIsTrue(Run(c, acts))
  {
    if acts != [] {
      RowIsOfArrivals(c, acts[..|acts| - 1]);
      StepShows(c, Run(c, acts[..|acts| - 1]), acts[|acts| - 1]);
    }
  }

  lemma {:induction false} RowOfHighest(arrived: seq<Heartbeat>)
    ensures RowOf(arrived).progress == Highest(arrived)
  {
    if arrived != [] {
      RowOfHighest(arrived[..|arrived| - 1]);
    }
  }

  /** The row shows the best news that arrived, however the heartbeats were delayed or repeated. */
  lemma RowIsTheBestNews(c: Setup, acts: seq<Act>)
    ensures Run(c, acts).row.progress == Highest(Run(c, acts).arrived)
    ensures forall i :: 0 <= i < |Run(c, acts).arrived| ==> Run(c, acts).arrived[i] in Run(c, acts).sent
  {
    RowIsOfArrivals(c, acts);
    RowOfHighest(Run(c, acts).arrived);
  }

  // --- Which heartbeat speaks ---------------------------------------------------------------

  /** Arrival i was above the start of the band and above everything that arrived before. */
  predicate Beats(arrived: seq<Heartbeat>, i: nat)
    requires i < |arrived|
  {
    Progress(arrived[i]) > 28 && forall j :: 0 <= j < i ==> Progress(arrived[j]) < Progress(arrived[i])
  }

  /** And nothing after it was above it. */
  predicate Speaks(arrived: seq<Heartbeat>, i: nat)
    requires i < |arrived|
  {
    Beats(arrived, i) && forall j :: i < j < |arrived| ==> Progress(arrived[j]) <= Progress(arrived[i])
  }

  lemma {:induction false} HighestIsHigh(arrived: seq<Heartbeat>)
    ensures Highest(arrived) >= 28 && forall j :: 0 <= j < |arrived| ==> Progress(arrived[j]) <= Highest(arrived)
    ensures Highest(arrived) == 28 || exists j :: 0 <= j < |arrived| && Progress(arrived[j]) == Highest(arrived)
  {
    if arrived != [] {
      var n := |arrived| - 1;
      HighestIsHigh(arrived[..n]);
      assert arrived == arrived[..n] + [arrived[n]];
      if Highest(arrived) != 28 && Highest(arrived) != Progress(arrived[n]) {
        var j :| 0 <= j < n && Progress(arrived[..n][j]) == Highest(arrived[..n]);
        assert Progress(arrived[j]) == Highest(arrived);
      }
    }
  }

  /** An arrival changes the row exactly when it beats what came before. */
  lemma ArrivalShowsExactlyWhen(arrived: seq<Heartbeat>, h: Heartbeat)
    ensures RowOf(arrived + [h]) == if Beats(arrived + [h], |arrived|) then Row(Progress(h), CaptionOf(h)) else RowOf(arrived)
    ensures Beats(arrived + [h], |arrived|) <==> Progress(h) > Highest(arrived)
  {
    assert (arrived + [h])[..|arrived|] == arrived;
    RowOfHighest(arrived);
    BeatsTheHighest(arrived, h);
  }

  lemma BeatsTheHighest(arrived: seq<Heartbeat>, h: Heartbeat)
    ensures Beats(arrived + [h], |arrived|) <==> Progress(h) > Highest(arrived)
  {
    var more := arrived + [h];
    HighestIsHigh(arrived);
    assert forall j :: 0 <= j < |arrived| ==> more[j] == arrived[j];
    if Progress(h) > 28 && Progress(h) <= Highest(arrived) {
      var j :| 0 <= j < |arrived| && Progress(arrived[j]) == Highest(arrived);
      assert Progress(more[j]) >= Progress(more[|arrived|]);
    }
  }

  function CaptionOf(h: Heartbeat): Message { if h.transcribing then Transcribing else Caption(Separating, Progress(h)) }

  /** The row carries the caption of the arrival that speaks: the first of the highest ones. */
  lemma {:induction false} RowIsOfTheSpeaker(arrived: seq<Heartbeat>)
    ensures forall i :: 0 <= i < |arrived| && Speaks(arrived, i) ==> RowOf(arrived) == Row(Progress(arrived[i]), CaptionOf(arrived[i]))
    ensures (forall i :: 0 <= i < |arrived| ==> !Speaks(arrived, i)) ==> RowOf(arrived) == START.row
    decreases |arrived|
  {
    if arrived != [] {
      var n := |arrived| - 1;
      var init, h := arrived[..n], arrived[n];
      assert arrived == init + [h];
      RowIsOfTheSpeaker(init);
      ArrivalShowsExactlyWhen(init, h);
      assert forall i :: 0 <= i < n ==> arrived[i] == init[i];
      assert forall i :: 0 <= i < n ==> (Beats(arrived, i) <==> Beats(init, i));
      assert Speaks(arrived, n) <==> Beats(arrived, n);
      SpeakersStay(init, h);
    }
  }

  /** Who spoke goes on speaking unless the newcomer beats. */
  lemma SpeakersStay(init: seq<Heartbeat>, h: Heartbeat)
    ensures var arrived := init + [h];
            forall i :: 0 <= i < |init| ==> (Speaks(arrived, i) <==> Speaks(init, i) && !Beats(arrived, |init|))
  {
    var arrived := init + [h];
    assert forall i :: 0 <= i < |init| ==> arrived[i] == init[i];
    forall i | 0 <= i < |init|
      ensures Speaks(arrived, i) <==> Speaks(init, i) && !Beats(arrived, |init|)
    {
      assert Beats(arrived, i) <==> Beats(init, i);
      if Speaks(arrived, i) {
        assert forall j :: i < j < |init| ==> Progress(arrived[j]) == Progress(init[j]);
        assert Progress(arrived[|init|]) <= Progress(arrived[i]);
      }
    }
  }

  /** After any run the caption says transcribing exactly when a transcription heartbeat speaks: one
      above the start of the band, above all that arrived before and not below what came later. */
  lemma CaptionSaysTranscribingExactlyWhen(c: Setup, acts: seq<Act>)
    ensures var arrived := Run(c, acts).arrived;
            Run(c, acts).row.message == Transcribing <==>
            exists i :: 0 <= i < |arrived| && Speaks(arrived, i) && arrived[i].transcribing
  {
    RowIsOfArrivals(c, acts);
    RowIsOfTheSpeaker(Run(c, acts).arrived);
  }

  /** A heartbeat whose progress is past the stems says that it transcribes. */
  predicate Honest(c: Setup, milli: int, stage: bool) { c.transcribe && milli > 580 ==> stage }

  ghost predicate Inv(c: Setup, w: World)
  {
    && (!w.stage ==> c.transcribe ==> w.milli <= 580)
    && (w.pc == Announced || w.pc == AtTranscription ==> w.stage)
    && (w.stage ==> c.transcribe && (w.pc == Announced || w.pc == AtTranscription || w.pc == Delivered))
    && (w.pc == AtSource ==> w.milli == 0)
    && (w.beat.Loaded? ==> Honest(c, w.beat.milli, w.stage))
    && (forall k :: 0 <= k < |w.sent| ==> Honest(c, w.sent[k].milli, w.sent[k].transcribing) && (w.sent[k].transcribing ==> c.transcribe))
    && (c.transcribe && w.row.progress > 56 ==> w.row.message == Transcribing)
    && (!c.transcribe ==> w.row.message != Transcribing)
  }

  /** The bands as the row shows them: up to 56 before the transcription, from 57 on in it. */
  lemma BandsAreApart(milli: int)
    ensures milli <= 580 ==> StageProgress(Separating, milli as real / 1000.0) <= 56
    ensures milli >= 600 ==> StageProgress(Separating, milli as real / 1000.0) >= 57
  {
    if milli <= 580 {
      StageProgressMonotone(Separating, milli as real / 1000.0, 0.58);
    } else if milli >= 600 {
      StageProgressMonotone(Separating, 0.60, milli as real / 1000.0);
    }
  }

  lemma UploadShare(i: nat, n: nat, lo: real, hi: real)
    requires i < n && lo <= hi
    ensures lo <= lo + (hi - lo) * ((i + 1) as real / n as real) <= hi
  {
    var share := (i + 1) as real / n as real;
    assert 0.0 <= share <= 1.0;
  }

  lemma WorkKeeps(c: Setup, w: World, a: Act)
    requires Inv(c, w) && Fraction(a)
    ensures Inv(c, WorkStep(c, w, a))
  {
    if a.Uploaded? && w.pc.AtUpload? && w.pc.i < c.stems && c.transcribe {
      UploadShare(w.pc.i, c.stems, 0.52, 0.58);
    }
  }

  lemma StepKeeps(c: Setup, w: World, a: Act)
    requires Inv(c, w) && Fraction(a)
    ensures Inv(c, Step(c, w, a))
  {
    match a
    case LoadProgress =>
    case LoadStage =>
    case Arrives(k) => if k < |w.sent| { BandsAreApart(w.sent[k].milli); }
    case _ => WorkKeeps(c, w, a);
  }

  lemma {:induction false} EveryRunKeeps(c: Setup, acts: seq<Act>)
    requires Fractions(acts)
    ensures Inv(c, Run(c, acts))
  {
    if acts != [] {
      EveryRunKeeps(c, acts[..|acts| - 1]);
      StepKeeps(c, Run(c, acts[..|acts| - 1]), acts[|acts| - 1]);
    }
  }

  // --- The caption -------------------------------------------------------------------------

  /** Only a transcribe job's heartbeats ever speak of transcribing. */
  predicate StageOk(c: Setup, w: World)
  {
    (w.stage ==> c.transcribe) && forall k :: 0 <= k < |w.sent| && w.sent[k].transcribing ==> c.transcribe
  }

  lemma StepKeepsStage(c: Setup, w: World, a: Act)
    requires StageOk(c, w)
    ensures StageOk(c, Step(c, w, a))
  {
    if !a.LoadProgress? && !a.LoadStage? && !a.Arrives? {
      WorkShowsNothing(c, w, a);
    }
  }

  lemma {:induction false} RunsKeepStage(c: Setup, acts: seq<Act>)
    ensures StageOk(c, Run(c, acts))
  {
    if acts != [] {
      RunsKeepStage(c, acts[..|acts| - 1]);
      StepKeepsStage(c, Run(c, acts[..|acts| - 1]), acts[|acts| - 1]);
    }
  }

  /** Whatever the tools report, the row is past the band of the stems under the wrong caption exactly
      when a separation heartbeat beyond that band speaks; a job that does not transcribe never says
      that it does. */
  lemma CaptionsFollowTheBands(c: Setup, acts: seq<Act>)
    ensures var row, arrived := Run(c, acts).row, Run(c, acts).arrived;
            && (row.progress > 56 && row.message != Transcribing <==>
                exists i :: 0 <= i < |arrived| && Speaks(arrived, i) && !arrived[i].transcribing && Progress(arrived[i]) > 56)
            && (!c.transcribe ==> row.message != Transcribing)
  {
    RowIsOfArrivals(c, acts);
    RowIsOfTheSpeaker(Run(c, acts).arrived);
    RunsKeepStage(c, acts);
  }

  /** With tools that report fractions that never happens. */
  lemma FractionsKeepTheBands(c: Setup, acts: seq<Act>)
    requires Fractions(acts)
    ensures var row := Run(c, acts).row; c.transcribe && row.progress > 56 ==> row.message == Transcribing
  {
    EveryRunKeeps(c, acts);
  }

  predicate AnyTranscribing(arrived: seq<Heartbeat>) { exists i :: 0 <= i < |arrived| && arrived[i].transcribing }

  /** The first heartbeat of the transcription to arrive stays hidden exactly when a separation
      heartbeat at least as high arrived before, or it is no further than the start of the band. */
  lemma TranscriptionHiddenExactlyWhen(c: Setup, acts: seq<Act>, k: nat)
    requires k < |Run(c, acts).sent| && Run(c, acts).sent[k].transcribing && !AnyTranscribing(Run(c, acts).arrived)
    ensures var w := Run(c, acts); var h := w.sent[k];
            Step(c, w, Arrives(k)).row.message != Transcribing <==>
            Progress(h) <= 28 || exists j :: 0 <= j < |w.arrived| && !w.arrived[j].transcribing && Progress(w.arrived[j]) >= Progress(h)
  {
    var w := Run(c, acts);
    var h := w.sent[k];
    RowIsOfArrivals(c, acts);
    ArrivalIsShown(c, w, k);
    ArrivalShowsExactlyWhen(w.arrived, h);
    RowIsOfTheSpeaker(w.arrived);
    HighestIsHigh(w.arrived);
    assert w.row.message != Transcribing;
  }

  /** Whatever the tools report, a transcription heartbeat above every separation heartbeat that
      arrived leaves the right caption. */
  lemma TranscriptionIsSeen(c: Setup, acts: seq<Act>, k: nat)
    requires k < |Run(c, acts).sent| && Run(c, acts).sent[k].transcribing && Progress(Run(c, acts).sent[k]) > 28
    requires var w := Run(c, acts);
             forall j :: 0 <= j < |w.arrived| && !w.arrived[j].transcribing ==> Progress(w.arrived[j]) < Progress(w.sent[k])
    ensures var row := Step(c, Run(c, acts), Arrives(k)).row;
            row.message == Transcribing && row.progress >= Progress(Run(c, acts).sent[k])
  {
    var w := Run(c, acts);
    var h := w.sent[k];
    RowIsOfArrivals(c, acts);
    ArrivalIsShown(c, w, k);
    ArrivalShowsExactlyWhen(w.arrived, h);
    RowOfHighest(w.arrived);
    RowIsOfTheSpeaker(w.arrived);
  }

  /** With fractions every heartbeat from the transcription is such a one. */
  lemma FractionsShowTheTranscription(c: Setup, acts: seq<Act>, k: nat)
    requires Fractions(acts) && c.transcribe && k < |Run(c, acts).sent| && Run(c, acts).sent[k].milli >= 600
    ensures Step(c, Run(c, acts), Arrives(k)).row.message == Transcribing
    ensures Step(c, Run(c, acts), Arrives(k)).row.progress > 56
  {
    EveryRunKeeps(c, acts);
    BandsAreApart(Run(c, acts).sent[k].milli);
  }

  /** Without fractions it can: one report of a separation beyond its end hides the transcription. */
  lemma OvershootHidesTheTranscription(stems: nat, milli: int)
    requires 600 <= milli <= 930
    ensures var c := Setup(true, true, stems);
            var row := Run(c, [Downloaded, Separates(2.0), LoadProgress, LoadStage, Arrives(0)]).row;
            row.message == Caption(Separating, 74) && Shown(row, Heartbeat(milli, true)) == row
  {
    var c := Setup(true, true, stems);
    var one, two, three := [Downloaded], [Downloaded, Separates(2.0)], [Downloaded, Separates(2.0), LoadProgress];
    var four := three + [LoadStage];
    var five := four + [Arrives(0)];
    assert one[..0] == [] && two[..1] == one && three[..2] == two && four[..3] == three && five[..4] == four;
    assert Run(c, one) == Step(c, Run(c, []), Downloaded) && Run(c, two) == Step(c, Run(c, one), Separates(2.0));
    assert Milli(0.05 + 0.45 * 2.0) == 950;
    assert Run(c, two).milli == 950;
    assert Run(c, three) == Step(c, Run(c, two), LoadProgress) && Run(c, four) == Step(c, Run(c, three), LoadStage);
    assert Run(c, four).sent == [Heartbeat(950, false)];
    assert five == [Downloaded, Separates(2.0), LoadProgress, LoadStage, Arrives(0)];
    StageProgressMonotone(Separating, milli as real / 1000.0, 0.93);
  }

  // --- The runner's own progress ---------------------------------------------------------------

  /** A report that does not fall behind the one before. */
  predicate GoesOn(c: Setup, w: World, a: Act)
  {
    var b := BandsOf(c.transcribe);
    && (a.Separates? && w.pc == AtSeparation ==> w.milli <= Milli(0.05 + b.sep * a.p))
    && (a.Reports? && w.pc == AtTranscription ==> w.milli <= Milli(b.tr + (0.93 - b.tr) * a.f))
  }

  /** How far the progress can be at each step. */
  predicate InItsBand(c: Setup, w: World)
  {
    var b := BandsOf(c.transcribe);
    match w.pc
    case AtSource => w.milli == 0
    case AtSeparation => 50 <= w.milli <= Milli(0.05 + b.sep)
    case AtConversion => w.milli == Milli(0.05 + b.sep)
    case AtUpload(i) =>
      i <= c.stems && w.milli == if i == 0 then Milli(b.conv) else Milli(b.conv + (b.up - b.conv) * (i as real / c.stems as real))
    case Announced => c.transcribe && Milli(b.conv) <= w.milli <= Milli(b.up)
    case AtTranscription => c.transcribe && Milli(b.tr) <= w.milli <= 930
    case Delivered => true
  }

  lemma {:induction false} EveryRunStaysInBand(c: Setup, acts: seq<Act>)
    requires Fractions(acts)
    ensures InItsBand(c, Run(c, acts))
  {
    if acts != [] {
      EveryRunStaysInBand(c, acts[..|acts| - 1]);
      BandStep(c, Run(c, acts[..|acts| - 1]), acts[|acts| - 1]);
    }
  }

  lemma BandStep(c: Setup, w: World, a: Act)
    requires InItsBand(c, w) && Fraction(a)
    ensures InItsBand(c, Step(c, w, a))
  {
    var b := BandsOf(c.transcribe);
    if a.Announce? && w.pc.AtUpload? && 0 < w.pc.i <= c.stems {
      UploadShare(w.pc.i - 1, c.stems, b.conv, b.up);
    }
  }

  /** With tools whose reports go on, the runner's progress never falls. */
  lemma ProgressNeverFalls(c: Setup, acts: seq<Act>, a: Act)
    requires Fractions(acts) && Fraction(a) && GoesOn(c, Run(c, acts), a)
    ensures Run(c, acts).milli <= Step(c, Run(c, acts), a).milli
  {
    EveryRunStaysInBand(c, acts);
    NeverFalls(c, Run(c, acts), a);
  }

  lemma NeverFalls(c: Setup, w: World, a: Act)
    requires InItsBand(c, w) && Fraction(a) && GoesOn(c, w, a)
    ensures w.milli <= Step(c, w, a).milli
  {
    var b := BandsOf(c.transcribe);
    if a.Uploaded? && w.pc.AtUpload? && w.pc.i < c.stems {
      NextShare(w.pc.i, c.stems, b.conv, b.up);
    }
  }

  lemma NextShare(i: nat, n: nat, lo: real, hi: real)
    requires i < n && 0.0 <= lo <= hi
    ensures Milli(lo + (hi - lo) * (i as real / n as real)) <= Milli(lo + (hi - lo) * ((i + 1) as real / n as real))
    ensures Milli(lo) <= Milli(lo + (hi - lo) * ((i + 1) as real / n as real))
  {
    var x, y := i as real / n as real, (i + 1) as real / n as real;
    assert 0.0 <= x <= y;
    assert (hi - lo) * x <= (hi - lo) * y;
    assert 0.0 <= (hi - lo) * x;
  }
}
