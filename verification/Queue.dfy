/** The job queue: creating, claiming and moving jobs, each in one transaction. */
module Queue {
  import opened Prelude
  import opened Stages
  import opened Tables

  // --- What each transaction does to the tables -------------------------------

  function Clamp(progress: int): int { Max(0, Min(progress, 100)) }

  function Moved(j: Job, status: Status, progress: int, message: Message, now: int): Job
  {
    j.(status := status, progress := progress,
       error := if status == Failed then Some(message) else j.error,
       startedAt := if j.startedAt.None? && status != Pending then Some(now) else j.startedAt,
       completedAt := if IsTerminal(status) then Some(now) else j.completedAt)
  }

  function AfterTransition(db: Db, id: JobId, status: Status, progress: int, message: Message, now: int): Db
  {
    if id !in db.jobs || IsTerminal(db.jobs[id].status) then db
    else
      Emitted(db.(jobs := db.jobs[id := Moved(db.jobs[id], status, Clamp(progress), message, now)]),
              id, status, Clamp(progress), message, now)
  }

  function TransitionError(db: Db, id: JobId): Error
  {
    if id !in db.jobs then NotFound else if IsTerminal(db.jobs[id].status) then Terminal else NoError
  }

  function AfterCreate(db: Db, id: JobId, j: Job, now: int): Db
  {
    Emitted(db.(jobs := db.jobs[id := j]), id, Pending, 0, Caption(Pending, 0), now)
  }

  function NewJob(quality: string, stack: string, model: Option<string>, transcribe: bool,
                  expiresAt: int, now: int): Job
  {
    Job(quality, stack, model, transcribe, Pending, 0, None, now, None, None, expiresAt)
  }

  function PendingJobs(db: Db): set<JobId>
  {
    set id | id in db.jobs && db.jobs[id].status == Pending
  }

  function QueueKey(jobs: map<JobId, Job>): map<JobId, Key>
  {
    map id | id in jobs :: Key(0, jobs[id].createdAt, 0, id)
  }

  function AfterClaim(db: Db, id: JobId, now: int): Db
    requires id in db.jobs
  {
    Emitted(db.(jobs := db.jobs[id := db.jobs[id].(status := Converting, startedAt := Some(now), progress := 0)]),
            id, Converting, 0, Caption(Converting, 0), now)
  }

  predicate IsExpired(db: Db, id: JobId, now: int)
  {
    id in db.jobs && db.jobs[id].expiresAt < now
  }

  /** Deleting job rows cascades to their leases and events. */
  function AfterDelete(db: Db, gone: set<JobId>): Db
  {
    db.(jobs := db.jobs - gone,
        leases := map l | l in db.leases && db.leases[l].job !in gone :: db.leases[l],
        events := db.events - gone)
  }

  // --- The transactions ---------------------------------------------------------

  method Create(db: Database, id: JobId, quality: string, stack: string, model: Option<string>,
                transcribe: bool, expiresAt: int, now: int)
    modifies db
    ensures db.Snapshot() == AfterCreate(old(db.Snapshot()), id,
                                         NewJob(quality, stack, model, transcribe, expiresAt, now), now)
  {
    db.jobs := db.jobs[id := Job(quality, stack, model, transcribe, Pending, 0, None, now, None, None, expiresAt)];
    db.Emit(id, Pending, 0, Caption(Pending, 0), now);
  }

  method Transition(db: Database, id: JobId, status: Status, progress: int, message: Message, now: int)
    returns (e: Error)
    modifies db
    ensures e == TransitionError(old(db.Snapshot()), id)
    ensures db.Snapshot() == AfterTransition(old(db.Snapshot()), id, status, progress, message, now)
  {
    var p := progress;
    if p < 0 {
      p := 0;
    } else if p > 100 {
      p := 100;
    }
    if id !in db.jobs {
      return NotFound;
    }
    var j := db.jobs[id];
    if IsTerminal(j.status) {
      return Terminal;
    }
    j := j.(status := status, progress := p);
    if status == Failed {
      j := j.(error := Some(message));
    }
    if j.startedAt.None? && status != Pending {
      j := j.(startedAt := Some(now));
    }
    if IsTerminal(status) {
      j := j.(completedAt := Some(now));
    }
    assert j == Moved(db.jobs[id], status, p, message, now) && p == Clamp(progress);
    WriteRow(db, id, j, status, p, message, now);
    return NoError;
  }

  /** The UPDATE of a row and the event that goes with it. */
  method WriteRow(db: Database, id: JobId, j: Job, status: Status, progress: int, message: Message, now: int)
    modifies db
    ensures db.Snapshot() == Emitted(old(db.Snapshot()).(jobs := old(db.jobs)[id := j]), id, status, progress, message, now)
  {
    db.jobs := db.jobs[id := j];
    db.Emit(id, status, progress, message, now);
  }

  method Cancel(db: Database, id: JobId, now: int) returns (e: Error)
    modifies db
    ensures e == TransitionError(old(db.Snapshot()), id)
    ensures db.Snapshot() == AfterTransition(old(db.Snapshot()), id, Cancelled, 0, CancelledByUser, now)
  {
    e := Transition(db, id, Cancelled, 0, CancelledByUser, now);
  }

  /** Takes the oldest pending job; an empty queue is an answer, not a change. */
  method Claim(db: Database, now: int) returns (r: Option<JobId>)
    modifies db
    ensures r.None? <==> PendingJobs(old(db.Snapshot())) == {}
    ensures r.None? ==> db.Snapshot() == old(db.Snapshot())
    ensures r.Some? ==>
              First(r.value, PendingJobs(old(db.Snapshot())), QueueKey(old(db.jobs))) &&
              db.Snapshot() == AfterClaim(old(db.Snapshot()), r.value, now)
  {
    var waiting := set id | id in db.jobs && db.jobs[id].status == Pending;
    assert waiting == PendingJobs(db.Snapshot());
    if waiting == {} {
      return None;
    }
    var id := PickFirst(waiting, QueueKey(db.jobs));
    db.jobs := db.jobs[id := db.jobs[id].(status := Converting, startedAt := Some(now), progress := 0)];
    db.Emit(id, Converting, 0, Caption(Converting, 0), now);
    return Some(id);
  }

  predicate IsCpuStage(s: Status)
  {
    s == Converting || s == Analyzing || s == Finalizing || s == Packaging
  }

  /** No event of the job is newer than the given time. */
  predicate Quiet(events: map<JobId, seq<Event>>, id: JobId, since: int)
  {
    id in events ==> forall i :: 0 <= i < |events[id]| ==> events[id][i].at <= since
  }

  /** CPU-stage jobs whose newest event is at least maxAge old. */
  function Stale(db: Db, maxAge: int, now: int): set<JobId>
  {
    set id | id in db.jobs && IsCpuStage(db.jobs[id].status) && Quiet(db.events, id, now - maxAge)
  }

  function AfterFailStale(db: Db, ids: seq<JobId>, now: int): Db
  {
    if ids == [] then db
    else AfterTransition(AfterFailStale(db, ids[..|ids| - 1], now), ids[|ids| - 1], Failed, 0, Stalled, now)
  }

  method FailStale(db: Database, maxAge: int, now: int) returns (failed: seq<JobId>)
    modifies db
    ensures Distinct(failed) && Elements(failed) == Stale(old(db.Snapshot()), maxAge, now)
    ensures db.Snapshot() == AfterFailStale(old(db.Snapshot()), failed, now)
  {
    failed := [];
    ghost var before := db.Snapshot();
    var todo := set id | id in db.jobs && IsCpuStage(db.jobs[id].status) && Quiet(db.events, id, now - maxAge);
    assert todo == Stale(before, maxAge, now);
    while todo != {}
      invariant todo !! Elements(failed)
      invariant todo + Elements(failed) == Stale(before, maxAge, now)
      invariant Distinct(failed)
      invariant db.Snapshot() == AfterFailStale(before, failed, now)
      decreases todo
    {
      var id :| id in todo;
      var _ := Transition(db, id, Failed, 0, Stalled, now);
      ghost var done := failed;
      failed := failed + [id];
      assert failed[..|failed| - 1] == done;
      assert Elements(failed) == Elements(done) + {id};
      todo := todo - {id};
    }
  }

  method DeleteExpired(db: Database, now: int) returns (gone: set<JobId>)
    modifies db
    ensures gone == set id | id in old(db.jobs) && IsExpired(old(db.Snapshot()), id, now)
    ensures db.Snapshot() == AfterDelete(old(db.Snapshot()), gone)
  {
    gone := set id | id in db.jobs && db.jobs[id].expiresAt < now;
    db.jobs := db.jobs - gone;
    db.leases := map l | l in db.leases && db.leases[l].job !in gone :: db.leases[l];
    db.events := db.events - gone;
  }

  // --- The row is the last entry of its log -------------------------------------

  /** One job row against its own event log. */
  ghost predicate RowMatchesLog(j: Job, log: seq<Event>)
  {
    && log != []
    && var last := log[|log| - 1];
    && last.status == j.status && last.progress == j.progress
    && (forall i :: 0 <= i < |log| - 1 ==> !IsTerminal(log[i].status))
    && (forall i :: 0 <= i < |log| ==> InBand(log[i].status, log[i].progress))
    && (j.completedAt.Some? <==> IsTerminal(j.status))
    && (j.error.Some? <==> j.status == Failed)
    && (j.error.Some? ==> last.message == j.error.value)
  }

  ghost predicate Ascending(log: seq<Event>, next: nat)
  {
    && (forall i, k :: 0 <= i < k < |log| ==> log[i].id < log[k].id)
    && (forall i :: 0 <= i < |log| ==> 0 < log[i].id < next)
  }

  ghost predicate LogOk(db: Db)
  {
    && 0 < db.nextEvent
    && db.events.Keys == db.jobs.Keys
    && (forall id :: id in db.jobs ==> RowMatchesLog(db.jobs[id], db.events[id]))
    && (forall id :: id in db.jobs ==> Ascending(db.events[id], db.nextEvent))
  }

  /** Appending the event of a move keeps one row in step with its log. */
  lemma AppendKeepsRow(j: Job, log: seq<Event>, j': Job, e: Event, next: nat)
    requires log == [] || (RowMatchesLog(j, log) && !IsTerminal(j.status))
    requires Ascending(log, next) && e.id == next && next > 0
    requires e.status == j'.status && e.progress == j'.progress && InBand(e.status, e.progress)
    requires j'.completedAt.Some? <==> IsTerminal(j'.status)
    requires j'.error.Some? <==> j'.status == Failed
    requires j'.error.Some? ==> j'.error.value == e.message
    ensures RowMatchesLog(j', log + [e])
    ensures Ascending(log + [e], next + 1)
  {
    var log' := log + [e];
    forall i | 0 <= i < |log'| - 1
      ensures !IsTerminal(log'[i].status)
    {
      assert log'[i] == log[i];
    }
  }

  /** Replacing one row together with its log leaves every other row alone. */
  lemma OneRowChanges(db: Db, db': Db, id: JobId)
    requires LogOk(db) && db'.nextEvent >= db.nextEvent
    requires db'.jobs.Keys == db.jobs.Keys + {id} && db'.events.Keys == db'.jobs.Keys
    requires forall k :: k in db.jobs && k != id ==> db'.jobs[k] == db.jobs[k] && db'.events[k] == db.events[k]
    requires RowMatchesLog(db'.jobs[id], db'.events[id]) && Ascending(db'.events[id], db'.nextEvent)
    ensures LogOk(db')
  {
    forall k | k in db'.jobs
      ensures RowMatchesLog(db'.jobs[k], db'.events[k]) && Ascending(db'.events[k], db'.nextEvent)
    {
      if k != id {
        assert RowMatchesLog(db.jobs[k], db.events[k]);
        LaterIdsAscend(db.events[k], db.nextEvent, db'.nextEvent);
      }
    }
  }

  lemma LaterIdsAscend(log: seq<Event>, next: nat, later: nat)
    requires Ascending(log, next) && next <= later
    ensures Ascending(log, later)
  {
  }

  lemma MovedStaysConsistent(j: Job, status: Status, progress: int, message: Message, now: int)
    requires !IsTerminal(j.status) && j.completedAt.None? && j.error.None?
    requires InBand(status, progress)
    ensures Clamp(progress) == progress
    ensures var j' := Moved(j, status, progress, message, now);
            j'.status == status && j'.progress == progress &&
            (j'.completedAt.Some? <==> IsTerminal(status)) &&
            j'.error == if status == Failed then Some(message) else None
  {
  }

  /** A move to a progress inside the band of its status keeps every row and log in step. */
  lemma TransitionKeepsLog(db: Db, id: JobId, status: Status, progress: int, message: Message, now: int)
    requires LogOk(db) && InBand(status, progress)
    ensures LogOk(AfterTransition(db, id, status, progress, message, now))
  {
    if TransitionError(db, id) == NoError {
      var j := Moved(db.jobs[id], status, progress, message, now);
      var e := Event(db.nextEvent, status, progress, message, now);
      MovedStaysConsistent(db.jobs[id], status, progress, message, now);
      AppendKeepsRow(db.jobs[id], db.events[id], j, e, db.nextEvent);
      var db' := AfterTransition(db, id, status, progress, message, now);
      assert db'.jobs == db.jobs[id := j] && db'.events == db.events[id := db.events[id] + [e]];
      OneRowChanges(db, db', id);
    }
  }

  lemma CreateKeepsLog(db: Db, id: JobId, j: Job, now: int)
    requires LogOk(db) && id !in db.jobs
    requires j.status == Pending && j.progress == 0 && j.error.None? && j.completedAt.None?
    ensures LogOk(AfterCreate(db, id, j, now))
  {
    AppendKeepsRow(j, [], j, Event(db.nextEvent, Pending, 0, Caption(Pending, 0), now), db.nextEvent);
    OneRowChanges(db, AfterCreate(db, id, j, now), id);
  }

  lemma ClaimKeepsLog(db: Db, id: JobId, now: int)
    requires LogOk(db) && id in PendingJobs(db)
    ensures LogOk(AfterClaim(db, id, now))
  {
    var j := db.jobs[id].(status := Converting, startedAt := Some(now), progress := 0);
    AppendKeepsRow(db.jobs[id], db.events[id], j,
                   Event(db.nextEvent, Converting, 0, Caption(Converting, 0), now), db.nextEvent);
    OneRowChanges(db, AfterClaim(db, id, now), id);
  }

  lemma DeleteKeepsLog(db: Db, gone: set<JobId>)
    requires LogOk(db)
    ensures LogOk(AfterDelete(db, gone))
  {
    var db' := AfterDelete(db, gone);
    assert db'.events.Keys == db'.jobs.Keys;
  }

  /** A finished job never changes again: every further move is refused. */
  lemma TerminalIsAbsorbing(db: Db, id: JobId, other: JobId, status: Status, progress: int, message: Message, now: int)
    requires id in db.jobs && IsTerminal(db.jobs[id].status)
    ensures id in AfterTransition(db, other, status, progress, message, now).jobs
    ensures AfterTransition(db, other, status, progress, message, now).jobs[id] == db.jobs[id]
    ensures Log(AfterTransition(db, other, status, progress, message, now), id) == Log(db, id)
  {
  }
}
