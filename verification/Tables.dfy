/**
 The Postgres tables the job protocol lives in. `Db` is one committed state of
 the tables; `Database` is the object the stores update in place.
 */
module Tables {
  import opened Prelude
  import opened Stages

  type JobId = nat
  type LeaseId = nat
  type RunnerId = string

  /** What a job event says to the user, kept symbolic instead of formatted. */
  datatype Message =
    | Caption(status: Status, progress: int)
    | CancelledByUser
    | Stalled
    | NoRunnerInTime
    | Transcribing
    | Retrying(failures: int, reason: string)
    | GaveUp(attempts: int, reason: string)
    | StageError(text: string)

  datatype Job = Job(
    quality: string, stack: string, model: Option<string>, transcribe: bool,
    status: Status, progress: int, error: Option<Message>,
    createdAt: int, startedAt: Option<int>, completedAt: Option<int>, expiresAt: int)

  datatype LeaseState = LeaseActive | LeaseCompleted | LeaseFailed | LeaseExpired

  datatype Lease = Lease(
    job: JobId, runner: RunnerId, leasedAt: int, heartbeatAt: int, expiresAt: int, state: LeaseState)

  /** A row of job_events; ids come from one serial shared by all jobs. */
  datatype Event = Event(id: nat, status: Status, progress: int, message: Message, at: int)

  datatype Db = Db(
    jobs: map<JobId, Job>, leases: map<LeaseId, Lease>, events: map<JobId, seq<Event>>,
    nextEvent: nat, nextLease: LeaseId)

  datatype Error =
    | NoError | NotFound | Terminal | NoJobs | NotActive | WrongOwner | JobGone
    | BadStems | BadArtifacts | Fault

  class Database {
    var jobs: map<JobId, Job>
    var leases: map<LeaseId, Lease>
    var events: map<JobId, seq<Event>>
    var nextEvent: nat
    var nextLease: LeaseId

    constructor ()
      ensures Snapshot() == Db(map[], map[], map[], 1, 1)
    {
      jobs, leases, events, nextEvent, nextLease := map[], map[], map[], 1, 1;
    }

    ghost function Snapshot(): Db
      reads this
    {
      Db(jobs, leases, events, nextEvent, nextLease)
    }

    /** Appends a job_event; the row lock of the caller keeps ids in commit order per job. */
    method Emit(id: JobId, status: Status, progress: int, message: Message, now: int)
      modifies this
      ensures Snapshot() == Emitted(old(Snapshot()), id, status, progress, message, now)
    {
      var log := if id in events then events[id] else [];
      events := events[id := log + [Event(nextEvent, status, progress, message, now)]];
      nextEvent := nextEvent + 1;
    }
  }

  function Log(db: Db, id: JobId): seq<Event>
  {
    if id in db.events then db.events[id] else []
  }

  function Emitted(db: Db, id: JobId, status: Status, progress: int, message: Message, now: int): Db
  {
    db.(events := db.events[id := Log(db, id) + [Event(db.nextEvent, status, progress, message, now)]],
        nextEvent := db.nextEvent + 1)
  }

  // --- Sorting rows -----------------------------------------------------------

  /** An ORDER BY key; the last component is the primary key, so keys never tie. */
  datatype Key = Key(nulls: int, first: int, second: int, id: JobId)

  predicate Less(a: Key, b: Key)
  {
    a.nulls < b.nulls || (a.nulls == b.nulls &&
    (a.first < b.first || (a.first == b.first &&
    (a.second < b.second || (a.second == b.second && a.id < b.id)))))
  }

  /** LIMIT 1 of an ORDER BY: the least candidate. */
  ghost predicate First(id: JobId, candidates: set<JobId>, key: map<JobId, Key>)
    requires candidates <= key.Keys
  {
    id in candidates && forall c :: c in candidates && c != id ==> Less(key[id], key[c])
  }

  method PickFirst(candidates: set<JobId>, key: map<JobId, Key>) returns (best: JobId)
    requires candidates != {} && candidates <= key.Keys
    requires forall c :: c in candidates ==> key[c].id == c
    ensures First(best, candidates, key)
  {
    best :| best in candidates;
    var rest := candidates - {best};
    while rest != {}
      invariant rest <= candidates && best in candidates && best !in rest
      invariant forall c :: c in candidates && c !in rest && c != best ==> Less(key[best], key[c])
      decreases rest
    {
      var c :| c in rest;
      rest := rest - {c};
      if Less(key[c], key[best]) {
        best := c;
      }
    }
  }
}
