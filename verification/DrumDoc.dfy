/**
 The drum editor's document (doc.go, profile.go) and what an export of it
 contains (export.go).
 */
module DrumDoc {
  import opened Prelude

  const MAX_EVENTS := 20000
  const MAX_ID := 32

  datatype Source = FromModel | Manual | Unknown(text: string)

  datatype Event = Event(id: string, art: string, t: Num, vel: Num, src: Source, model: Option<int>)

  datatype Doc = Doc(editRev: int, exportedRev: Option<int>, profile: string, modelCount: nat, updatedAt: int, events: seq<Event>)

  /** One line of notes/drums.json, as the parser lets it through: finite, velocity within 0..1. */
  datatype Note = Note(onset: real, offset: real, pitch: int, velocity: real)

  // --- Profiles -----------------------------------------------------------------

  /** The articulations in row order, and a profile that maps them all to keys. */
  datatype Profile = Profile(id: string, rows: seq<string>, notes: map<string, int>)
  {
    ghost predicate Complete() { forall a :: a in rows ==> a in notes }

    function Key(art: string): Option<int>
    {
      if art in notes then Some(notes[art]) else None
    }

    function FirstRow(key: int, from: nat): Option<string>
      decreases |rows| - from
    {
      if from >= |rows| then None
      else if (if rows[from] in notes then notes[rows[from]] else 0) == key then Some(rows[from])
      else FirstRow(key, from + 1)
    }

    /** The first articulation in row order written to the key. */
    function Articulation(key: int): Option<string> { FirstRow(key, 0) }

    lemma {:induction false} RowFound(key: int, from: nat)
      requires Complete()
      ensures match FirstRow(key, from)
              case Some(art) => art in rows && Key(art) == Some(key)
              case None => forall i :: from <= i < |rows| ==> Key(rows[i]) != Some(key)
      decreases |rows| - from
    {
      if from < |rows| && Key(rows[from]) != Some(key) {
        RowFound(key, from + 1);
      }
    }

    /** The articulation of a key is written back to that key, and only unmapped keys have none. */
    lemma KeyOfArticulation(key: int)
      requires Complete()
      ensures match Articulation(key)
              case Some(art) => art in rows && Key(art) == Some(key)
              case None => forall art :: art in rows ==> Key(art) != Some(key)
    {
      RowFound(key, 0);
    }
  }

  // --- Ids ------------------------------------------------------------------------

  function Digit(d: int): char
    requires 0 <= d < 10
  {
    '0' + d as char
  }

  function Decimal(n: nat): string
  {
    if n < 10 then [Digit(n)] else Decimal(n / 10) + [Digit(n % 10)]
  }

  predicate IdChar(c: char) { 'a' <= c <= 'z' || '0' <= c <= '9' || c == '_' || c == '-' }

  /** ^[a-z][a-z0-9_-]{0,31}$ */
  predicate IdOk(id: string)
  {
    1 <= |id| <= MAX_ID && 'a' <= id[0] <= 'z' && forall i :: 1 <= i < |id| ==> IdChar(id[i])
  }

  function SeedId(i: nat): string { "m" + Decimal(i) }

  lemma {:induction false} DecimalIsDigits(n: nat)
    ensures |Decimal(n)| > 0 && forall i :: 0 <= i < |Decimal(n)| ==> '0' <= Decimal(n)[i] <= '9'
  {
    if n >= 10 {
      DecimalIsDigits(n / 10);
    }
  }

  lemma {:induction false} DecimalIsInjective(a: nat, b: nat)
    requires Decimal(a) == Decimal(b)
    ensures a == b
    decreases a
  {
    DecimalIsDigits(a / 10);
    DecimalIsDigits(b / 10);
    var da, db := Decimal(a), Decimal(b);
    assert da[|da| - 1] == Digit(a % 10) && db[|db| - 1] == Digit(b % 10);
    assert a >= 10 <==> |da| >= 2;
    assert b >= 10 <==> |db| >= 2;
    if a >= 10 {
      assert da[..|da| - 1] == Decimal(a / 10) && db[..|db| - 1] == Decimal(b / 10);
      DecimalIsInjective(a / 10, b / 10);
    }
  }

  lemma DecimalIsShort(n: nat)
    requires n < 100_000
    ensures |Decimal(n)| <= 5
  {
    var n1 := n / 10;
    var n2 := n1 / 10;
    var n3 := n2 / 10;
    var n4 := n3 / 10;
    assert n4 < 10;
    assert |Decimal(n4)| == 1;
    assert |Decimal(n3)| <= 2;
    assert |Decimal(n2)| <= 3;
    assert |Decimal(n1)| <= 4;
  }

  /** The seed's ids obey the grammar and differ. */
  lemma SeedIds(i: nat, j: nat)
    requires i < MAX_EVENTS && j < MAX_EVENTS
    ensures IdOk(SeedId(i))
    ensures SeedId(i) == SeedId(j) ==> i == j
  {
    DecimalIsDigits(i);
    DecimalIsShort(i);
    if SeedId(i) == SeedId(j) {
      assert SeedId(i)[1..] == Decimal(i) && SeedId(j)[1..] == Decimal(j);
      DecimalIsInjective(i, j);
    }
  }

  // --- The seed ---------------------------------------------------------------------

  datatype Warning = Unmapped(index: nat, pitch: int) | Silent(index: nat)

  predicate Playable(n: Note, p: Profile) { p.Articulation(n.pitch).Some? && n.velocity > 0.0 }

  function SeedEvent(i: nat, n: Note, p: Profile): Event
    requires Playable(n, p)
  {
    Event(SeedId(i), p.Articulation(n.pitch).value, Fin(n.onset), Fin(n.velocity), FromModel, Some(i))
  }

  function SeedEvents(notes: seq<Note>, p: Profile): seq<Event>
  {
    if notes == [] then []
    else
      var i := |notes| - 1;
      SeedEvents(notes[..i], p) + if Playable(notes[i], p) then [SeedEvent(i, notes[i], p)] else []
  }

  function Warnings(notes: seq<Note>, p: Profile): seq<Warning>
  {
    if notes == [] then []
    else
      var i := |notes| - 1;
      Warnings(notes[..i], p) +
      if p.Articulation(notes[i].pitch).None? then [Unmapped(i, notes[i].pitch)]
      else if notes[i].velocity <= 0.0 then [Silent(i)] else []
  }

  method Seed(notes: seq<Note>, p: Profile, now: int) returns (d: Doc, warnings: seq<Warning>)
    ensures d.events == SeedEvents(notes, p) && d.editRev == 0 && d.exportedRev == None
    ensures d.profile == p.id && d.modelCount == |notes| && d.updatedAt == now
    ensures warnings == Warnings(notes, p)
  {
    var events: seq<Event> := [];
    warnings := [];
    for i := 0 to |notes|
      invariant events == SeedEvents(notes[..i], p) && warnings == Warnings(notes[..i], p)
    {
      assert notes[..i + 1][..i] == notes[..i];
      var n := notes[i];
      var art := p.Articulation(n.pitch);
      if art.None? {
        warnings := warnings + [Unmapped(i, n.pitch)];
        continue;
      }
      if n.velocity <= 0.0 {
        warnings := warnings + [Silent(i)];
        continue;
      }
      events := events + [Event(SeedId(i), art.value, Fin(n.onset), Fin(n.velocity), FromModel, Some(i))];
    }
    assert notes[..|notes|] == notes;
    d := Doc(0, None, p.id, |notes|, now, events);
  }

  // --- Validation ---------------------------------------------------------------------

  predicate TimeOk(t: Num, duration: real)
  {
    t.Fin? && t.r >= 0.0 && (duration <= 0.0 || t.r <= duration)
  }

  predicate EventOk(e: Event, rows: seq<string>, duration: real, modelCount: int)
  {
    && IdOk(e.id) && e.art in rows && TimeOk(e.t, duration)
    && e.vel.Fin? && 0.0 < e.vel.r <= 1.0
    && match e.src
       case Manual => e.model.None?
       case FromModel => e.model.Some? && 0 <= e.model.value < modelCount
       case Unknown(_) => false
  }

  ghost predicate Acceptable(events: seq<Event>, rows: seq<string>, duration: real, modelCount: int)
  {
    && |events| <= MAX_EVENTS
    && (forall i :: 0 <= i < |events| ==> EventOk(events[i], rows, duration, modelCount))
    && (forall i, j :: 0 <= i < j < |events| ==> events[i].id != events[j].id)
  }

  /** Go's e.T < 0, NaN included. */
  predicate Below(x: Num, bound: real) { x.NegInf? || (x.Fin? && x.r < bound) }

  predicate Above(x: Num, bound: real) { x.PosInf? || (x.Fin? && x.r > bound) }

  method Validate(events: seq<Event>, rows: seq<string>, duration: real, modelCount: int)
    returns (sorted: Option<seq<Event>>)
    ensures sorted.Some? <==> Acceptable(events, rows, duration, modelCount)
    ensures sorted.Some? ==> sorted.value == Sorted(events)
  {
    if |events| > MAX_EVENTS {
      return None;
    }
    var seen: set<string> := {};
    for i := 0 to |events|
      invariant forall k :: 0 <= k < i ==> EventOk(events[k], rows, duration, modelCount)
      invariant forall j, k :: 0 <= j < k < i ==> events[j].id != events[k].id
      invariant forall id :: id in seen <==> exists k :: 0 <= k < i && events[k].id == id
    {
      var e := events[i];
      if !IdOk(e.id) || e.id in seen {
        return None;
      }
      seen := seen + {e.id};
      if e.art !in rows {
        return None;
      }
      if e.t.NaN? || e.t.PosInf? || e.t.NegInf? || Below(e.t, 0.0) || (duration > 0.0 && Above(e.t, duration)) {
        return None;
      }
      if e.vel.NaN? || Below(e.vel, 0.0) || e.vel == Fin(0.0) || Above(e.vel, 1.0) {
        return None;
      }
      match e.src
      case Manual =>
        if e.model.Some? {
          return None;
        }
      case FromModel =>
        if e.model.None? || e.model.value < 0 || e.model.value >= modelCount {
          return None;
        }
      case Unknown(_) =>
        return None;
    }
    return Some(Sorted(events));
  }

  // --- Sorting by time --------------------------------------------------------------------

  function Time(e: Event): real { if e.t.Fin? then e.t.r else 0.0 }

  /** Behind everything that is not later. */
  function Inserted(s: seq<Event>, e: Event): seq<Event>
  {
    if s == [] || Time(s[|s| - 1]) <= Time(e) then s + [e]
    else Inserted(s[..|s| - 1], e) + [s[|s| - 1]]
  }

  /** The stable sort by time. */
  function Sorted(events: seq<Event>): seq<Event>
  {
    if events == [] then [] else Inserted(Sorted(events[..|events| - 1]), events[|events| - 1])
  }

  ghost predicate InOrder(s: seq<Event>) { forall i, j :: 0 <= i < j < |s| ==> Time(s[i]) <= Time(s[j]) }

  /** The events at one time, in order. */
  function At(s: seq<Event>, t: real): seq<Event>
  {
    if s == [] then [] else At(s[..|s| - 1], t) + if Time(s[|s| - 1]) == t then [s[|s| - 1]] else []
  }

  lemma AtAppend(s: seq<Event>, e: Event, t: real)
    ensures At(s + [e], t) == At(s, t) + if Time(e) == t then [e] else []
  {
    assert (s + [e])[..|s|] == s;
  }

  lemma {:induction false} InsertedMembers(s: seq<Event>, e: Event)
    ensures |Inserted(s, e)| == |s| + 1
    ensures forall x :: x in Inserted(s, e) <==> x in s || x == e
  {
    if s != [] && Time(s[|s| - 1]) > Time(e) {
      InsertedMembers(s[..|s| - 1], e);
      assert s == s[..|s| - 1] + [s[|s| - 1]];
    }
  }

  lemma {:induction false} InsertedInOrder(s: seq<Event>, e: Event)
    requires InOrder(s)
    ensures InOrder(Inserted(s, e))
  {
    if s != [] && Time(s[|s| - 1]) > Time(e) {
      var init, last := s[..|s| - 1], s[|s| - 1];
      InsertedInOrder(init, e);
      InsertedMembers(init, e);
      var r := Inserted(init, e);
      forall i | 0 <= i < |r|
        ensures Time(r[i]) <= Time(last)
      {
        assert r[i] in init || r[i] == e;
      }
    }
  }

  lemma {:induction false} InsertedAt(s: seq<Event>, e: Event, t: real)
    ensures At(Inserted(s, e), t) == At(s, t) + if Time(e) == t then [e] else []
  {
    if s != [] && Time(s[|s| - 1]) > Time(e) {
      var init, last := s[..|s| - 1], s[|s| - 1];
      assert Inserted(s, e) == Inserted(init, e) + [last];
      InsertedAt(init, e, t);
      AtAppend(Inserted(init, e), last, t);
    } else {
      AtAppend(s, e, t);
    }
  }

  /** Sorting puts the events in order of time and keeps those of equal time as they were. */
  lemma SortedIsStable(events: seq<Event>, t: real)
    ensures InOrder(Sorted(events)) && |Sorted(events)| == |events|
    ensures forall x :: x in Sorted(events) <==> x in events
    ensures At(Sorted(events), t) == At(events, t)
  {
    SortedInOrder(events);
    SortedAt(events, t);
  }

  lemma {:induction false} SortedInOrder(events: seq<Event>)
    ensures InOrder(Sorted(events)) && |Sorted(events)| == |events|
    ensures forall x :: x in Sorted(events) <==> x in events
  {
    if events != [] {
      var init, last := events[..|events| - 1], events[|events| - 1];
      SortedInOrder(init);
      InsertedInOrder(Sorted(init), last);
      InsertedMembers(Sorted(init), last);
      assert events == init + [last];
    }
  }

  lemma {:induction false} SortedAt(events: seq<Event>, t: real)
    ensures At(Sorted(events), t) == At(events, t)
  {
    if events != [] {
      var init, last := events[..|events| - 1], events[|events| - 1];
      SortedAt(init, t);
      InsertedAt(Sorted(init), last, t);
    }
  }

  lemma {:induction false} SortedStays(events: seq<Event>)
    requires InOrder(events)
    ensures Sorted(events) == events
  {
    if events != [] {
      var init, last := events[..|events| - 1], events[|events| - 1];
      assert InOrder(init);
      SortedStays(init);
      GoesLast(init, last);
      assert events == init + [last];
    }
  }

  lemma GoesLast(s: seq<Event>, e: Event)
    requires s == [] || Time(s[|s| - 1]) <= Time(e)
    ensures Inserted(s, e) == s + [e]
  {
  }

  // --- The seed is saveable ------------------------------------------------------------------

  /** What the parser and the job promise about the notes; duration 0 or less is no bound. */
  ghost predicate NotesOk(notes: seq<Note>, duration: real)
  {
    |notes| <= MAX_EVENTS &&
    forall i :: 0 <= i < |notes| ==> TimeOk(Fin(notes[i].onset), duration) && notes[i].velocity <= 1.0
  }

  lemma {:induction false} SeedEventsCome(notes: seq<Note>, p: Profile, n: nat)
    requires |notes| <= n
    ensures |SeedEvents(notes, p)| <= |notes|
    ensures forall k :: 0 <= k < |SeedEvents(notes, p)| ==>
              var e := SeedEvents(notes, p)[k];
              e.model.Some? && 0 <= e.model.value < |notes| && Playable(notes[e.model.value], p) &&
              e == SeedEvent(e.model.value, notes[e.model.value], p)
    ensures forall j, k :: 0 <= j < k < |SeedEvents(notes, p)| ==>
              SeedEvents(notes, p)[j].model.value < SeedEvents(notes, p)[k].model.value
  {
    if notes != [] {
      SeedEventsCome(notes[..|notes| - 1], p, n);
    }
  }

  /** Validate accepts every seed, with the model count its document carries. */
  lemma SeedIsAcceptable(notes: seq<Note>, p: Profile, duration: real)
    requires p.Complete() && NotesOk(notes, duration)
    ensures Acceptable(SeedEvents(notes, p), p.rows, duration, |notes|)
  {
    var events := SeedEvents(notes, p);
    SeedEventsCome(notes, p, |notes|);
    forall k | 0 <= k < |events|
      ensures EventOk(events[k], p.rows, duration, |notes|)
    {
      var i := events[k].model.value;
      SeedIds(i, i);
      p.KeyOfArticulation(notes[i].pitch);
    }
    forall j, k | 0 <= j < k < |events|
      ensures events[j].id != events[k].id
    {
      SeedIds(events[j].model.value, events[k].model.value);
    }
  }

  /** And leaves it as it is, the parser having sorted the notes by onset. */
  lemma SeedIsSorted(notes: seq<Note>, p: Profile)
    requires forall i, j :: 0 <= i < j < |notes| ==> notes[i].onset <= notes[j].onset
    ensures Sorted(SeedEvents(notes, p)) == SeedEvents(notes, p)
  {
    SeedEventsCome(notes, p, |notes|);
    SortedStays(SeedEvents(notes, p));
  }

  // --- Exports ----------------------------------------------------------------------------------

  const DRUM_DURATION := 0.25
  const MIN_DURATION := 0.03125
  const DEFAULT_BPM := 120.0

  datatype MidiNote = MidiNote(beat: real, duration: real, key: int, velocity: Num)

  function Duration(stem: string, onset: real, offset: real): real
  {
    var length := if stem == "drums" then DRUM_DURATION else offset - onset;
    if length < MIN_DURATION then MIN_DURATION else length
  }

  /** Seconds to beats: a tempo map when there is one, else a single tempo. */
  function Beat(grid: Option<real -> real>, tempo: real, sec: real): real
  {
    if grid.Some? then grid.value(sec) else sec * tempo / 60.0
  }

  /** The worker takes whatever tempo was detected, the export only a positive one. */
  function WorkerTempo(detected: Option<real>): real { if detected.Some? then detected.value else DEFAULT_BPM }

  function ExportTempo(detected: Option<real>): real
  {
    if detected.Some? && detected.value > 0.0 then detected.value else DEFAULT_BPM
  }

  method Tracks(events: seq<Event>, p: Profile, grid: Option<real -> real>, tempo: real) returns (notes: Option<seq<MidiNote>>)
    ensures notes == Exported(events, p, grid, tempo)
  {
    var out: seq<MidiNote> := [];
    for i := 0 to |events|
      invariant Exported(events[..i], p, grid, tempo) == Some(out)
    {
      assert events[..i + 1][..i] == events[..i];
      var key := p.Key(events[i].art);
      if key.None? {
        NoKeyNoExport(events, p, grid, tempo, i + 1);
        return None;
      }
      var start := Beat(grid, tempo, Time(events[i]));
      out := out + [MidiNote(start, Duration("drums", start, start), key.value, events[i].vel)];
    }
    assert events[..|events|] == events;
    return Some(out);
  }

  function Exported(events: seq<Event>, p: Profile, grid: Option<real -> real>, tempo: real): Option<seq<MidiNote>>
  {
    if events == [] then Some([])
    else
      var e := events[|events| - 1];
      var init := Exported(events[..|events| - 1], p, grid, tempo);
      if init.None? || p.Key(e.art).None? then None
      else
        var start := Beat(grid, tempo, Time(e));
        Some(init.value + [MidiNote(start, Duration("drums", start, start), p.Key(e.art).value, e.vel)])
  }

  lemma {:induction false} NoKeyNoExport(events: seq<Event>, p: Profile, grid: Option<real -> real>, tempo: real, n: nat)
    requires n <= |events| && Exported(events[..n], p, grid, tempo).None?
    ensures Exported(events, p, grid, tempo).None?
    decreases |events| - n
  {
    if n < |events| {
      assert events[..n + 1][..n] == events[..n];
      NoKeyNoExport(events, p, grid, tempo, n + 1);
    } else {
      assert events[..n] == events;
    }
  }

  /** What finalize writes into midi/drums.mid for the model output. */
  function Written(notes: seq<Note>, grid: Option<real -> real>, tempo: real): seq<MidiNote>
  {
    if notes == [] then []
    else
      var n := notes[|notes| - 1];
      var start := Beat(grid, tempo, n.onset);
      Written(notes[..|notes| - 1], grid, tempo) +
      [MidiNote(start, Duration("drums", start, Beat(grid, tempo, n.offset)), n.pitch, Fin(n.velocity))]
  }

  function PlayableOnly(notes: seq<Note>, p: Profile): seq<Note>
  {
    if notes == [] then []
    else PlayableOnly(notes[..|notes| - 1], p) + if Playable(notes[|notes| - 1], p) then [notes[|notes| - 1]] else []
  }

  /** An export of the untouched seed is what the worker wrote, without the notes the seed drops. */
  lemma {:induction false} ExportOfTheSeed(notes: seq<Note>, p: Profile, grid: Option<real -> real>, tempo: real)
    requires p.Complete()
    ensures Exported(SeedEvents(notes, p), p, grid, tempo) == Some(Written(PlayableOnly(notes, p), grid, tempo))
  {
    if notes != [] {
      var i := |notes| - 1;
      ExportOfTheSeed(notes[..i], p, grid, tempo);
      if Playable(notes[i], p) {
        var e := SeedEvent(i, notes[i], p);
        p.KeyOfArticulation(notes[i].pitch);
        assert SeedEvents(notes, p)[..|SeedEvents(notes, p)| - 1] == SeedEvents(notes[..i], p);
        assert PlayableOnly(notes, p)[..|PlayableOnly(notes, p)| - 1] == PlayableOnly(notes[..i], p);
      } else {
        assert SeedEvents(notes, p) == SeedEvents(notes[..i], p);
        assert PlayableOnly(notes, p) == PlayableOnly(notes[..i], p);
      }
    }
  }

  lemma {:induction false} NothingDropped(notes: seq<Note>, p: Profile)
    requires forall i :: 0 <= i < |notes| ==> Playable(notes[i], p)
    ensures PlayableOnly(notes, p) == notes
  {
    if notes != [] {
      NothingDropped(notes[..|notes| - 1], p);
    }
  }

  /** The round trip: with every pitch mapped and every velocity positive, exporting the untouched
      seed gives exactly the worker's notes if there is a tempo map, if no tempo or a positive one was
      detected, or if every note is at 0, and in no other case. */
  lemma SeedRoundTrip(notes: seq<Note>, p: Profile, grid: Option<real -> real>, detected: Option<real>)
    requires p.Complete() && forall i :: 0 <= i < |notes| ==> Playable(notes[i], p)
    ensures Exported(SeedEvents(notes, p), p, grid, ExportTempo(detected)) == Some(Written(notes, grid, WorkerTempo(detected)))
            <==> grid.Some? || detected.None? || detected.value > 0.0 || AllAtZero(notes)
  {
    var a, b := ExportTempo(detected), WorkerTempo(detected);
    ExportOfTheSeed(notes, p, grid, a);
    NothingDropped(notes, p);
    if grid.Some? {
      SameUnderAGrid(notes, grid, a, b);
    } else if a != b {
      SameExactlyAtZero(notes, a, b);
    }
  }

  /** The tempi tempo.json may hold; the parser refuses all others. */
  predicate Believable(detected: Option<real>) { detected.Some? ==> 20.0 <= detected.value <= 400.0 }

  /** So for every tempo that reaches the worker the export equals what it wrote. */
  lemma SeedRoundTripAlways(notes: seq<Note>, p: Profile, grid: Option<real -> real>, detected: Option<real>)
    requires p.Complete() && (forall i :: 0 <= i < |notes| ==> Playable(notes[i], p)) && Believable(detected)
    ensures Exported(SeedEvents(notes, p), p, grid, ExportTempo(detected)) == Some(Written(notes, grid, WorkerTempo(detected)))
  {
    SeedRoundTrip(notes, p, grid, detected);
  }

  predicate AllAtZero(notes: seq<Note>) { forall i :: 0 <= i < |notes| ==> notes[i].onset == 0.0 }

  /** Two tempi tell all notes apart but those at 0. */
  lemma {:induction false} SameExactlyAtZero(notes: seq<Note>, a: real, b: real)
    requires a != b
    ensures Written(notes, None, a) == Written(notes, None, b) <==> AllAtZero(notes)
  {
    if notes != [] {
      var n := |notes| - 1;
      SameExactlyAtZero(notes[..n], a, b);
      TempiDiffer(notes[n].onset, a, b);
      var x, y := Written(notes, None, a), Written(notes, None, b);
      assert x[..|x| - 1] == Written(notes[..n], None, a) && y[..|y| - 1] == Written(notes[..n], None, b);
      assert AllAtZero(notes) <==> AllAtZero(notes[..n]) && notes[n].onset == 0.0;
      assert x == y <==> x[..|x| - 1] == y[..|y| - 1] && x[|x| - 1] == y[|y| - 1];
    }
  }

  lemma TempiDiffer(sec: real, a: real, b: real)
    requires a != b
    ensures sec * a / 60.0 == sec * b / 60.0 <==> sec == 0.0
  {
    assert sec * a - sec * b == sec * (a - b);
  }

  lemma {:induction false} SameUnderAGrid(notes: seq<Note>, grid: Option<real -> real>, a: real, b: real)
    requires grid.Some?
    ensures Written(notes, grid, a) == Written(notes, grid, b)
  {
    if notes != [] {
      SameUnderAGrid(notes[..|notes| - 1], grid, a, b);
    }
  }
}
