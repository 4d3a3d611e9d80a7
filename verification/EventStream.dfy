/**
 Job events as a server-sent event stream (sse.go) woken by the notification
 broker (broker.go).
 */
module EventStream {
  import opened Prelude
  import opened Stages
  import opened Tables
  import Queue

  type Chan = nat

  // --- The broker -----------------------------------------------------------------

  /** Who listens for which job, and which channels hold their one wake-up. */
  datatype Broker = Broker(subs: map<JobId, set<Chan>>, tokens: set<Chan>, next: Chan)

  function SubsOf(b: Broker, job: JobId): set<Chan>
  {
    if job in b.subs then b.subs[job] else {}
  }

  function Subscribed(b: Broker, job: JobId): Broker
  {
    b.(subs := b.subs[job := SubsOf(b, job) + {b.next}], next := b.next + 1)
  }

  function Unsubscribed(b: Broker, job: JobId, ch: Chan): Broker
  {
    if job !in b.subs then b
    else if b.subs[job] - {ch} == {} then b.(subs := b.subs - {job})
    else b.(subs := b.subs[job := b.subs[job] - {ch}])
  }

  /** A wake-up for every subscriber; one that is already pending absorbs it. */
  function Published(b: Broker, job: JobId): Broker
  {
    b.(tokens := b.tokens + SubsOf(b, job))
  }

  class BrokerObject {
    var subs: map<JobId, set<Chan>>
    var tokens: set<Chan>
    var next: Chan

    ghost function Snapshot(): Broker
      reads this
    {
      Broker(subs, tokens, next)
    }

    method Subscribe(job: JobId) returns (ch: Chan)
      modifies this
      ensures Snapshot() == Subscribed(old(Snapshot()), job) && ch == old(next)
    {
      ch := next;
      next := next + 1;
      if job !in subs {
        subs := subs[job := {}];
      }
      subs := subs[job := subs[job] + {ch}];
    }

    method Cancel(job: JobId, ch: Chan)
      modifies this
      ensures Snapshot() == Unsubscribed(old(Snapshot()), job, ch)
    {
      if job in subs {
        subs := subs[job := subs[job] - {ch}];
        if subs[job] == {} {
          subs := subs - {job};
        }
      }
      assert Snapshot().subs == Unsubscribed(old(Snapshot()), job, ch).subs;
    }

    method Publish(job: JobId)
      modifies this
      ensures Snapshot() == Published(old(Snapshot()), job)
    {
      var rest := if job in subs then subs[job] else {};
      while rest != {}
        invariant subs == old(subs) && next == old(next)
        invariant rest <= SubsOf(old(Snapshot()), job)
        invariant tokens == old(tokens) + (SubsOf(old(Snapshot()), job) - rest)
        decreases |rest|
      {
        var ch :| ch in rest;
        rest := rest - {ch};
        if ch !in tokens {
          tokens := tokens + {ch};
        }
      }
    }
  }

  // --- The log ----------------------------------------------------------------------

  /** WHERE id > x ORDER BY id, on a log kept in id order. */
  function After(log: seq<Event>, x: int): seq<Event>
  {
    if log == [] then []
    else
      var e := log[|log| - 1];
      After(log[..|log| - 1], x) + if e.id > x then [e] else []
  }

  /** The events with lo < id <= hi. */
  function Between(log: seq<Event>, lo: int, hi: int): seq<Event>
  {
    if log == [] then []
    else
      var e := log[|log| - 1];
      Between(log[..|log| - 1], lo, hi) + if lo < e.id <= hi then [e] else []
  }

  ghost predicate Ordered(log: seq<Event>, next: nat)
  {
    && (forall i, j :: 0 <= i < j < |log| ==> log[i].id < log[j].id)
    && (forall i :: 0 <= i < |log| ==> log[i].id < next)
  }

  predicate Closed(log: seq<Event>) { log != [] && IsTerminal(log[|log| - 1].status) }

  lemma {:induction false} UnderTheBound(log: seq<Event>, lo: int, x: int, hi: int)
    requires x <= hi && After(log, x) == []
    ensures Between(log, lo, hi) == Between(log, lo, x)
    ensures forall i :: 0 <= i < |log| ==> log[i].id <= x
  {
    if log != [] {
      UnderTheBound(log[..|log| - 1], lo, x, hi);
    }
  }

  lemma {:induction false} AfterMembers(log: seq<Event>, x: int)
    ensures forall i :: 0 <= i < |After(log, x)| ==> After(log, x)[i] in log && After(log, x)[i].id > x
  {
    if log != [] {
      AfterMembers(log[..|log| - 1], x);
    }
  }

  /** Moving the bound to the next event takes exactly that event over. */
  lemma {:induction false} NextEvent(log: seq<Event>, next: nat, lo: int, x: int)
    requires Ordered(log, next) && lo <= x && After(log, x) != []
    ensures var e := After(log, x)[0];
            && e in log && e.id > x
            && Between(log, lo, e.id) == Between(log, lo, x) + [e]
            && After(log, e.id) == After(log, x)[1..]
  {
    var init, last := log[..|log| - 1], log[|log| - 1];
    AfterMembers(log, x);
    if After(init, x) == [] {
      UnderTheBound(init, lo, x, last.id);
      NoneAbove(init, last.id);
    } else {
      NextEvent(init, next, lo, x);
      var e := After(init, x)[0];
      assert After(log, x)[0] == e;
      assert last.id > e.id;
      if last.id > x {
        assert After(log, x)[1..] == After(init, x)[1..] + [last];
      }
    }
  }

  lemma {:induction false} NoneAbove(log: seq<Event>, x: int)
    requires forall i :: 0 <= i < |log| ==> log[i].id <= x
    ensures After(log, x) == []
  {
    if log != [] {
      NoneAbove(log[..|log| - 1], x);
    }
  }

  lemma {:induction false} AfterPrefix(log: seq<Event>, n: nat, x: int)
    requires n <= |log|
    ensures After(log[..n], x) <= After(log, x)
  {
    if n < |log| {
      AfterPrefix(log[..|log| - 1], n, x);
      assert log[..|log| - 1][..n] == log[..n];
    } else {
      assert log[..n] == log;
    }
  }

  // --- One client ---------------------------------------------------------------------

  datatype Pc =
    | Fresh                                                // subscribed, the replay is still to be read
    | Woken                                                // a wake-up or a heartbeat, the log is to be read
    | Writing(evs: seq<Event>, k: nat, upto: nat, first: bool)
    | Waiting                                              // blocked in select
    | Ended                                                // returned normally
    | Broken                                               // returned on an error or a disconnect

  /** `upto` and `seen` are history: how much of the log the query read, and how much of it has been
      announced to this client. */
  datatype Client = Client(job: JobId, start: nat, wasTerminal: bool, lastId: nat, sent: seq<Event>, seen: nat, pc: Pc)

  /** Last-Event-ID, or the query parameter when the header gives nothing. */
  function StartId(header: Option<int>, query: Option<int>): nat
  {
    var fromHeader := if header.Some? && header.value >= 0 then header.value else 0;
    if query.Some? && fromHeader == 0 && query.value >= 0 then query.value else fromHeader
  }

  /** One turn of catchUp's loop, or its return when the list is used up. */
  function WriteOne(c: Client, ok: bool): Client
  {
    if !c.pc.Writing? then c
    else if c.pc.k >= |c.pc.evs| then
      c.(pc := if c.pc.first && c.wasTerminal && c.lastId > 0 then Ended else Waiting)
    else if !ok then c.(pc := Broken)
    else
      var e := c.pc.evs[c.pc.k];
      c.(sent := c.sent + [e], lastId := e.id,
         pc := if IsTerminal(e.status) then Ended else c.pc.(k := c.pc.k + 1))
  }

  function Writes(c: Client, oks: seq<bool>): Client
  {
    if oks == [] then c else WriteOne(Writes(c, oks[..|oks| - 1]), oks[|oks| - 1])
  }

  class Stream {
    var lastId: nat
    var sent: seq<Event>

    /** catchUp on the rows its query returned; `oks` says which writes succeed. */
    method CatchUp(evs: seq<Event>, oks: seq<bool>, ghost c: Client) returns (done: bool, failed: bool)
      requires |oks| == |evs| && c.pc.Writing? && c.pc.evs == evs && c.pc.k == 0
      requires lastId == c.lastId && sent == c.sent
      modifies this
      ensures lastId == Writes(c, oks).lastId && sent == Writes(c, oks).sent
      ensures failed <==> Writes(c, oks).pc == Broken
      ensures done <==> Writes(c, oks).pc == Broken || Writes(c, oks).pc == Ended
    {
      for i := 0 to |evs|
        invariant Writes(c, oks[..i]) == c.(lastId := lastId, sent := sent, pc := c.pc.(k := i))
      {
        OneMoreWrite(c, oks, i);
        if !oks[i] {
          StoppedStays(c, oks, i + 1);
          return true, true;
        }
        sent := sent + [evs[i]];
        lastId := evs[i].id;
        if IsTerminal(evs[i].status) {
          StoppedStays(c, oks, i + 1);
          return true, false;
        }
      }
      assert oks[..|evs|] == oks;
      return false, false;
    }
  }

  lemma OneMoreWrite(c: Client, oks: seq<bool>, i: nat)
    requires i < |oks|
    ensures Writes(c, oks[..i + 1]) == WriteOne(Writes(c, oks[..i]), oks[i])
  {
    assert oks[..i + 1][..i] == oks[..i];
  }

  lemma {:induction false} StoppedStays(c: Client, oks: seq<bool>, n: nat)
    requires n <= |oks| && !Writes(c, oks[..n]).pc.Writing?
    ensures Writes(c, oks) == Writes(c, oks[..n])
    decreases |oks| - n
  {
    if n < |oks| {
      assert oks[..n + 1][..n] == oks[..n];
      StoppedStays(c, oks, n + 1);
    } else {
      assert oks[..n] == oks;
    }
  }

  // --- Everybody at once ------------------------------------------------------------------

  /** A committed notification on its way to the broker; `upto` is history, the log's length then. */
  datatype Note = Note(job: JobId, upto: nat)

  datatype World = World(logs: map<JobId, seq<Event>>, next: nat, notes: seq<Note>, broker: Broker, clients: map<Chan, Client>)

  datatype Act =
    | Commit(job: JobId, status: Status, progress: int, message: Message, at: int)
    | Publish                                              // the listener takes the next notification
    | Reconnect                                            // the listener loses what was on its way
    | Connect(job: JobId, header: Option<int>, query: Option<int>, wasTerminal: bool)
    | Query(ch: Chan, ok: bool)
    | Write(ch: Chan, ok: bool)
    | Wake(ch: Chan)
    | Ping(ch: Chan, ok: bool)
    | Hangup(ch: Chan)
    | Leave(ch: Chan)                                      // the deferred unsubscribe

  function LogOf(w: World, job: JobId): seq<Event> { if job in w.logs then w.logs[job] else [] }

  function Told(c: Client, note: Note): Client { c.(seen := Max(c.seen, note.upto)) }

  function Step(w: World, a: Act): World
  {
    match a
    case Commit(job, status, progress, message, at) =>
      if Closed(LogOf(w, job)) then w
      else
        var log := LogOf(w, job) + [Event(w.next, status, progress, message, at)];
        w.(logs := w.logs[job := log], next := w.next + 1, notes := w.notes + [Note(job, |log|)])
    case Publish =>
      if w.notes == [] then w
      else
        var note := w.notes[0];
        w.(notes := w.notes[1..], broker := Published(w.broker, note.job),
           clients := map ch | ch in w.clients ::
                        if ch in SubsOf(w.broker, note.job) then Told(w.clients[ch], note) else w.clients[ch])
    case Reconnect => w.(notes := [])
    case Connect(job, header, query, wasTerminal) =>
      if wasTerminal && !Closed(LogOf(w, job)) then w
      else
        var start := StartId(header, query);
        w.(broker := Subscribed(w.broker, job),
           clients := w.clients[w.broker.next := Client(job, start, wasTerminal, start, [], 0, Fresh)])
    case _ => if a.ch in w.clients then ClientStep(w, a, a.ch) else w
  }

  function ClientStep(w: World, a: Act, ch: Chan): World
    requires ch in w.clients
  {
    var c := w.clients[ch];
    match a
    case Query(_, ok) =>
      if c.pc != Fresh && c.pc != Woken then w
      else if !ok then w.(clients := w.clients[ch := c.(pc := Broken)])
      else
        var log := LogOf(w, c.job);
        w.(clients := w.clients[ch := c.(pc := Writing(After(log, c.lastId), 0, |log|, c.pc == Fresh))])
    case Write(_, ok) => w.(clients := w.clients[ch := WriteOne(c, ok)])
    case Wake(_) =>
      if c.pc != Waiting || ch !in w.broker.tokens then w
      else w.(broker := w.broker.(tokens := w.broker.tokens - {ch}), clients := w.clients[ch := c.(pc := Woken)])
    case Ping(_, ok) => if c.pc != Waiting then w else w.(clients := w.clients[ch := c.(pc := if ok then Woken else Broken)])
    case Hangup(_) => if c.pc == Ended then w else w.(clients := w.clients[ch := c.(pc := Broken)])
    case Leave(_) =>
      if c.pc != Ended && c.pc != Broken then w else w.(broker := Unsubscribed(w.broker, c.job, ch))
    case _ => w
  }

  function Run(acts: seq<Act>): World
  {
    if acts == [] then World(map[], 1, [], Broker(map[], {}, 0), map[])
    else Step(Run(acts[..|acts| - 1]), acts[|acts| - 1])
  }

  // --- What every run keeps -----------------------------------------------------------------

  /** Everything up to position n has been sent or was the client's already. */
  ghost predicate Has(log: seq<Event>, n: nat, lastId: int)
    requires n <= |log|
  {
    forall i :: 0 <= i < n ==> log[i].id <= lastId
  }

  /** What is still to be written is what the query read beyond lastId. */
  ghost predicate PcOk(c: Client, log: seq<Event>, token: bool)
    requires c.seen <= |log|
  {
    match c.pc
    case Writing(evs, k, upto, first) =>
      && k <= |evs| && upto <= |log| && (c.wasTerminal ==> upto == |log|)
      && evs[k..] == After(log[..upto], c.lastId) && (token || c.seen <= upto)
    case Waiting => token || Has(log, c.seen, c.lastId)
    case Ended => Closed(log) && log[|log| - 1].id <= c.lastId
    case _ => true
  }

  ghost predicate ClientOk(c: Client, log: seq<Event>, next: nat, token: bool)
  {
    && c.start <= c.lastId && (c.lastId == c.start || c.lastId < next)
    && c.sent == Between(log, c.start, c.lastId)
    && c.seen <= |log| && (c.wasTerminal ==> Closed(log))
    && PcOk(c, log, token)
  }

  /** Ids ascend, and only the last event may be terminal. */
  ghost predicate LogOk(log: seq<Event>, next: nat)
  {
    Ordered(log, next) && forall i :: 0 <= i < |log| - 1 ==> !IsTerminal(log[i].status)
  }

  ghost predicate LogsOk(w: World)
  {
    && (forall job :: job in w.logs ==> LogOk(w.logs[job], w.next))
    && (forall i :: 0 <= i < |w.notes| ==> w.notes[i].upto <= |LogOf(w, w.notes[i].job)|)
  }

  /** A client that has not left is subscribed to its job and to nothing else. */
  ghost predicate SubsOk(b: Broker, clients: map<Chan, Client>)
  {
    && (forall ch :: ch in clients ==> ch < b.next)
    && (forall job, ch :: job in b.subs && ch in b.subs[job] ==> ch in clients && clients[ch].job == job)
    && (forall ch :: ch in clients && clients[ch].pc != Ended && clients[ch].pc != Broken ==> ch in SubsOf(b, clients[ch].job))
  }

  ghost predicate ClientsOk(w: World)
  {
    forall ch :: ch in w.clients ==> ClientOk(w.clients[ch], LogOf(w, w.clients[ch].job), w.next, ch in w.broker.tokens)
  }

  ghost predicate Inv(w: World)
  {
    LogsOk(w) && SubsOk(w.broker, w.clients) && ClientsOk(w)
  }

  // --- One client ----------------------------------------------------------------------------

  lemma LogGrows(c: Client, log: seq<Event>, e: Event, next: nat, token: bool)
    requires ClientOk(c, log, next, token) && e.id == next && !Closed(log)
    ensures ClientOk(c, log + [e], next + 1, token)
  {
    var log' := log + [e];
    assert log'[..|log|] == log && log'[|log|] == e;
    if c.pc.Writing? {
      assert log'[..c.pc.upto] == log[..c.pc.upto];
    }
  }

  lemma IsTold(c: Client, log: seq<Event>, next: nat, token: bool, note: Note)
    requires ClientOk(c, log, next, token) && note.upto <= |log|
    ensures ClientOk(Told(c, note), log, next, true)
  {
  }

  lemma {:induction false} NothingAfter(log: seq<Event>, x: int)
    requires After(log, x) == []
    ensures Has(log, |log|, x)
  {
    UnderTheBound(log, x, x, x);
  }

  /** One event goes out. */
  lemma EventGoesOut(c: Client, log: seq<Event>, next: nat, token: bool)
    requires ClientOk(c, log, next, token) && LogOk(log, next) && c.pc.Writing? && c.pc.k < |c.pc.evs|
    ensures ClientOk(WriteOne(c, true), log, next, token)
  {
    var evs, k, upto := c.pc.evs, c.pc.k, c.pc.upto;
    var e := evs[k];
    AfterPrefix(log, upto, c.lastId);
    assert evs[k..][0] == e && evs[k..][1..] == evs[k + 1..];
    NextEvent(log[..upto], next, c.start, c.lastId);
    NextEvent(log, next, c.start, c.lastId);
    if IsTerminal(e.status) {
      var i :| 0 <= i < |log| && log[i] == e;
      assert i == |log| - 1;
    }
  }

  lemma WriteKeeps(c: Client, log: seq<Event>, next: nat, token: bool, ok: bool)
    requires ClientOk(c, log, next, token) && LogOk(log, next)
    ensures ClientOk(WriteOne(c, ok), log, next, token)
  {
    if c.pc.Writing? {
      if c.pc.k >= |c.pc.evs| {
        NothingAfter(log[..c.pc.upto], c.lastId);
      } else if ok {
        EventGoesOut(c, log, next, token);
      }
    }
  }

  lemma QueryKeeps(c: Client, log: seq<Event>, next: nat, token: bool)
    requires ClientOk(c, log, next, token)
    ensures ClientOk(c.(pc := Writing(After(log, c.lastId), 0, |log|, c.pc == Fresh)), log, next, token)
  {
    assert log[..|log|] == log;
  }

  // --- Everybody --------------------------------------------------------------------------------

  lemma CommitKeeps(w: World, a: Act)
    requires Inv(w) && a.Commit?
    ensures ClientsOk(Step(w, a)) && LogsOk(Step(w, a))
  {
    var w' := Step(w, a);
    if !Closed(LogOf(w, a.job)) {
      var e := Event(w.next, a.status, a.progress, a.message, a.at);
      forall ch | ch in w.clients
        ensures ClientOk(w'.clients[ch], LogOf(w', w'.clients[ch].job), w'.next, ch in w'.broker.tokens)
      {
        var c := w.clients[ch];
        if c.job == a.job {
          LogGrows(c, LogOf(w, c.job), e, w.next, ch in w.broker.tokens);
        } else {
          IdsMoveOn(c, LogOf(w, c.job), w.next, ch in w.broker.tokens);
        }
      }
      CommitKeepsLogs(w, a);
    }
  }

  lemma IdsMoveOn(c: Client, log: seq<Event>, next: nat, token: bool)
    requires ClientOk(c, log, next, token)
    ensures ClientOk(c, log, next + 1, token)
  {
  }

  lemma OneMoreEvent(log: seq<Event>, e: Event, next: nat)
    requires LogOk(log, next) && e.id == next && !Closed(log)
    ensures LogOk(log + [e], next + 1)
  {
  }

  lemma CommitKeepsLogs(w: World, a: Act)
    requires LogsOk(w) && a.Commit? && !Closed(LogOf(w, a.job))
    ensures LogsOk(Step(w, a))
  {
    var w' := Step(w, a);
    OneMoreEvent(LogOf(w, a.job), Event(w.next, a.status, a.progress, a.message, a.at), w.next);
    forall job | job in w'.logs
      ensures LogOk(w'.logs[job], w'.next)
    {
      if job != a.job {
        assert LogOk(w.logs[job], w.next);
      }
    }
    forall i | 0 <= i < |w'.notes|
      ensures w'.notes[i].upto <= |LogOf(w', w'.notes[i].job)|
    {
      if i < |w.notes| {
        assert w'.notes[i] == w.notes[i] && w.notes[i].upto <= |LogOf(w, w.notes[i].job)|;
      }
    }
  }

  lemma PublishKeeps(w: World)
    requires Inv(w) && w.notes != []
    ensures Inv(Step(w, Publish))
  {
    var w', note := Step(w, Publish), w.notes[0];
    PublishKeepsSubs(w);
    forall ch | ch in w'.clients
      ensures ClientOk(w'.clients[ch], LogOf(w', w'.clients[ch].job), w'.next, ch in w'.broker.tokens)
    {
      var c := w.clients[ch];
      if ch in SubsOf(w.broker, note.job) {
        IsTold(c, LogOf(w, c.job), w.next, ch in w.broker.tokens, note);
      }
    }
  }

  lemma PublishKeepsSubs(w: World)
    requires SubsOk(w.broker, w.clients) && w.notes != []
    ensures SubsOk(Step(w, Publish).broker, Step(w, Publish).clients)
  {
  }

  lemma ConnectKeeps(w: World, a: Act)
    requires Inv(w) && a.Connect?
    ensures Inv(Step(w, a))
  {
    var log, start, ch := LogOf(w, a.job), StartId(a.header, a.query), w.broker.next;
    NothingBetween(log, start);
    if !a.wasTerminal || Closed(log) {
      var c := Client(a.job, start, a.wasTerminal, start, [], 0, Fresh);
      assert Step(w, a) == w.(broker := Subscribed(w.broker, a.job), clients := w.clients[ch := c]);
      NewSubscriber(w.broker, w.clients, c);
      NewClient(w, Step(w, a), ch, c);
    }
  }

  lemma NewClient(w: World, w': World, ch: Chan, c: Client)
    requires Inv(w) && w' == w.(broker := w'.broker, clients := w.clients[ch := c]) && w'.broker.tokens == w.broker.tokens
    requires ClientOk(c, LogOf(w, c.job), w.next, ch in w.broker.tokens) && SubsOk(w'.broker, w'.clients)
    ensures Inv(w')
  {
  }

  lemma NewSubscriber(b: Broker, clients: map<Chan, Client>, c: Client)
    requires SubsOk(b, clients)
    ensures SubsOk(Subscribed(b, c.job), clients[b.next := c])
  {
    var b', clients' := Subscribed(b, c.job), clients[b.next := c];
    forall job, ch | job in b'.subs && ch in b'.subs[job]
      ensures ch in clients' && clients'[ch].job == job
    {
      if ch in SubsOf(b, job) {
        assert job in b.subs && ch in b.subs[job];
        assert ch in clients && clients[ch].job == job;
      } else {
        assert job == c.job && ch == b.next;
      }
    }
    forall ch | ch in clients' && clients'[ch].pc != Ended && clients'[ch].pc != Broken
      ensures ch in SubsOf(b', clients'[ch].job)
    {
      assert ch == b.next || ch in SubsOf(b, clients[ch].job);
    }
  }

  lemma {:induction false} NothingBetween(log: seq<Event>, x: int)
    ensures Between(log, x, x) == []
  {
    if log != [] {
      NothingBetween(log[..|log| - 1], x);
    }
  }

  /** Only client ch moved, to a state that is right, and the subscriptions still fit. */
  lemma OneClientMoves(w: World, w': World, ch: Chan, c': Client)
    requires Inv(w) && ch in w.clients && w' == w.(broker := w'.broker, clients := w.clients[ch := c'])
    requires forall k :: k != ch ==> (k in w'.broker.tokens <==> k in w.broker.tokens)
    requires ClientOk(c', LogOf(w, c'.job), w.next, ch in w'.broker.tokens)
    requires SubsOk(w'.broker, w'.clients)
    ensures Inv(w')
  {
  }

  lemma SameSubs(b: Broker, b': Broker, clients: map<Chan, Client>, ch: Chan, c': Client)
    requires SubsOk(b, clients) && ch in clients && b'.subs == b.subs && b'.next == b.next && c'.job == clients[ch].job
    requires clients[ch].pc == Ended || clients[ch].pc == Broken ==> c'.pc == Ended || c'.pc == Broken
    ensures SubsOk(b', clients[ch := c'])
  {
  }

  lemma LeaveKeepsSubs(b: Broker, clients: map<Chan, Client>, ch: Chan)
    requires SubsOk(b, clients) && ch in clients && (clients[ch].pc == Ended || clients[ch].pc == Broken)
    ensures SubsOk(Unsubscribed(b, clients[ch].job, ch), clients)
  {
  }

  /** The moves of one client, by what they need. */
  lemma QueryStepKeeps(w: World, ch: Chan, ok: bool)
    requires Inv(w) && ch in w.clients
    ensures Inv(ClientStep(w, Query(ch, ok), ch))
  {
    var w', c := ClientStep(w, Query(ch, ok), ch), w.clients[ch];
    var c' := w'.clients[ch];
    QueryKeeps(c, LogOf(w, c.job), w.next, ch in w.broker.tokens);
    SameSubs(w.broker, w'.broker, w.clients, ch, c');
    assert w.clients[ch := c] == w.clients;
    OneClientMoves(w, w', ch, c');
  }

  lemma WriteStepKeeps(w: World, ch: Chan, ok: bool)
    requires Inv(w) && ch in w.clients
    ensures Inv(ClientStep(w, Write(ch, ok), ch))
  {
    var w', c := ClientStep(w, Write(ch, ok), ch), w.clients[ch];
    var log := LogOf(w, c.job);
    assert LogOk(log, w.next);
    WriteKeeps(c, log, w.next, ch in w.broker.tokens, ok);
    SameSubs(w.broker, w'.broker, w.clients, ch, WriteOne(c, ok));
    OneClientMoves(w, w', ch, WriteOne(c, ok));
  }

  lemma OtherStepKeeps(w: World, a: Act, ch: Chan)
    requires Inv(w) && ch in w.clients && (a.Wake? || a.Ping? || a.Hangup?) && a.ch == ch
    ensures Inv(ClientStep(w, a, ch))
  {
    var w', c := ClientStep(w, a, ch), w.clients[ch];
    var c' := w'.clients[ch];
    assert ClientOk(c, LogOf(w, c.job), w.next, ch in w.broker.tokens);
    SameSubs(w.broker, w'.broker, w.clients, ch, c');
    assert w.clients[ch := c] == w.clients;
    OneClientMoves(w, w', ch, c');
  }

  lemma StepKeeps(w: World, a: Act)
    requires Inv(w)
    ensures Inv(Step(w, a))
  {
    match a
    case Commit(_, _, _, _, _) => CommitKeeps(w, a);
    case Publish =>
      if w.notes != [] {
        PublishKeeps(w);
      }
    case Reconnect =>
    case Connect(_, _, _, _) => ConnectKeeps(w, a);
    case Leave(ch) =>
      if ch in w.clients && (w.clients[ch].pc == Ended || w.clients[ch].pc == Broken) {
        LeaveKeepsSubs(w.broker, w.clients, ch);
      }
    case Query(ch, ok) =>
      if ch in w.clients {
        QueryStepKeeps(w, ch, ok);
      }
    case Write(ch, ok) =>
      if ch in w.clients {
        WriteStepKeeps(w, ch, ok);
      }
    case _ =>
      if a.ch in w.clients {
        OtherStepKeeps(w, a, a.ch);
      }
  }

  lemma {:induction false} EveryRunKeeps(acts: seq<Act>)
    ensures Inv(Run(acts))
  {
    if acts != [] {
      var init, last := acts[..|acts| - 1], acts[|acts| - 1];
      EveryRunKeeps(init);
      StepKeeps(Run(init), last);
    }
  }

  // --- What a client can rely on -------------------------------------------------------------------

  /** At any moment a client has been sent exactly the events of its job with an id above its
      Last-Event-ID and up to the last one sent: each once, in order, none left out. */
  lemma DeliveredIsTheLog(acts: seq<Act>, ch: Chan)
    requires ch in Run(acts).clients
    ensures var w := Run(acts); var c := w.clients[ch];
            && c.sent == Between(LogOf(w, c.job), c.start, c.lastId)
            && forall i, j :: 0 <= i < j < |c.sent| ==> c.sent[i].id < c.sent[j].id
  {
    EveryRunKeeps(acts);
    var w := Run(acts);
    var c := w.clients[ch];
    assert ClientOk(c, LogOf(w, c.job), w.next, ch in w.broker.tokens);
    BetweenIsOrdered(LogOf(w, c.job), w.next, c.start, c.lastId);
  }

  lemma {:induction false} BetweenIsOrdered(log: seq<Event>, next: nat, lo: int, hi: int)
    requires Ordered(log, next)
    ensures forall i, j :: 0 <= i < j < |Between(log, lo, hi)| ==> Between(log, lo, hi)[i].id < Between(log, lo, hi)[j].id
    ensures forall e :: e in Between(log, lo, hi) <==> e in log && lo < e.id <= hi
  {
    if log != [] {
      var init, last := log[..|log| - 1], log[|log| - 1];
      BetweenIsOrdered(init, next, lo, hi);
      assert log == init + [last];
      assert forall e :: e in init ==> e.id < last.id;
    }
  }

  /** A handler that blocks with no wake-up pending has sent every event announced since it
      subscribed. */
  lemma BlockedMeansCaughtUp(acts: seq<Act>, ch: Chan, i: nat)
    requires ch in Run(acts).clients
    requires var w := Run(acts); var c := w.clients[ch];
             c.pc == Waiting && ch !in w.broker.tokens && i < c.seen && i < |LogOf(w, c.job)| && LogOf(w, c.job)[i].id > c.start
    ensures var w := Run(acts); LogOf(w, w.clients[ch].job)[i] in w.clients[ch].sent
  {
    EveryRunKeeps(acts);
    var w := Run(acts);
    var c := w.clients[ch];
    assert ClientOk(c, LogOf(w, c.job), w.next, false);
    BetweenIsOrdered(LogOf(w, c.job), w.next, c.start, c.lastId);
  }

  /** A notification lost on a reconnect only delays: once what a query returned is written, all
      that was committed when it ran is sent. */
  lemma QueriesCatchUp(acts: seq<Act>, ch: Chan, i: nat)
    requires ch in Run(acts).clients
    requires var c := Run(acts).clients[ch]; c.pc.Writing? && c.pc.k >= |c.pc.evs| && i < c.pc.upto
    ensures var w := Run(acts); var c := w.clients[ch];
            i < |LogOf(w, c.job)| && (LogOf(w, c.job)[i].id > c.start ==> LogOf(w, c.job)[i] in c.sent)
  {
    EveryRunKeeps(acts);
    var w := Run(acts);
    var c := w.clients[ch];
    assert ClientOk(c, LogOf(w, c.job), w.next, ch in w.broker.tokens);
    WrittenOut(c, LogOf(w, c.job), w.next, ch in w.broker.tokens, i);
  }

  lemma WrittenOut(c: Client, log: seq<Event>, next: nat, token: bool, i: nat)
    requires ClientOk(c, log, next, token) && Ordered(log, next)
    requires c.pc.Writing? && c.pc.k >= |c.pc.evs| && i < c.pc.upto
    ensures i < |log| && (log[i].id > c.start ==> log[i] in c.sent)
  {
    NothingAfter(log[..c.pc.upto], c.lastId);
    assert log[..c.pc.upto][i] == log[i];
    BetweenIsOrdered(log, next, c.start, c.lastId);
  }

  /** The server ends a stream normally only when the client has the terminal event: it was sent,
      or the client came with an id at least as high. */
  lemma EndsWithTheTerminalEvent(acts: seq<Act>, ch: Chan)
    requires ch in Run(acts).clients && Run(acts).clients[ch].pc == Ended
    ensures var w := Run(acts); var c := w.clients[ch]; var log := LogOf(w, c.job);
            Closed(log) && (log[|log| - 1] in c.sent || log[|log| - 1].id <= c.start)
  {
    EveryRunKeeps(acts);
    var w := Run(acts);
    var c := w.clients[ch];
    assert ClientOk(c, LogOf(w, c.job), w.next, ch in w.broker.tokens);
    BetweenIsOrdered(LogOf(w, c.job), w.next, c.start, c.lastId);
  }

  /** The logs the queue keeps are such logs, closed exactly when the job is terminal. */
  lemma QueueLogsAreSuch(db: Db, id: JobId)
    requires Queue.LogOk(db) && id in db.jobs
    ensures LogOk(db.events[id], db.nextEvent)
    ensures Closed(db.events[id]) <==> IsTerminal(db.jobs[id].status)
  {
    assert Queue.RowMatchesLog(db.jobs[id], db.events[id]);
  }
}
