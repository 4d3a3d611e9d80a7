/** The GPU lease store: runners claim, heartbeat, complete or fail; leases expire. */
module Leases {
  import opened Prelude
  import opened Stages
  import opened Tables
  import Queue

  datatype Capabilities = Capabilities(transcribe: bool, recipes: seq<string>, stack: string)

  datatype StemReport = StemReport(name: string, bytes: int, sha256: string)

  datatype ArtifactReport = ArtifactReport(name: string, bytes: int, sha256: string)

  // --- Counting the leases of a job ---------------------------------------------

  type LeaseTable = map<LeaseId, Lease>

  function ActiveOf(leases: LeaseTable, id: JobId): set<LeaseId>
  {
    set l | l in leases && leases[l].job == id && leases[l].state == LeaseActive
  }

  function CompletedOf(leases: LeaseTable, id: JobId): set<LeaseId>
  {
    set l | l in leases && leases[l].job == id && leases[l].state == LeaseCompleted
  }

  predicate IsDead(state: LeaseState) { state == LeaseFailed || state == LeaseExpired }

  function DeadOf(leases: LeaseTable, id: JobId): set<LeaseId>
  {
    set l | l in leases && leases[l].job == id && IsDead(leases[l].state)
  }

  function Failures(leases: LeaseTable, id: JobId): nat { |DeadOf(leases, id)| }

  // --- Which job a runner is offered ----------------------------------------------

  /** A row's recipe id as the claim query computes it. */
  function JobModelSql(j: Job): string
  {
    if j.model.Some? then j.model.value
    else if j.quality == "high" then "htdemucs_ft"
    else if j.quality == "high6" then "htdemucs_6s"
    else "htdemucs"
  }

  predicate Offered(db: Db, id: JobId, max: int, caps: Capabilities)
  {
    && id in db.jobs
    && var j := db.jobs[id];
    && j.status == Separating
    && (j.transcribe ==> caps.transcribe)
    && JobModelSql(j) in caps.recipes
    && (j.stack == "public" || caps.stack == "internal")
    && ActiveOf(db.leases, id) == {}
    && Failures(db.leases, id) < max
  }

  function OfferedJobs(db: Db, max: int, caps: Capabilities): set<JobId>
  {
    set id | id in db.jobs && Offered(db, id, max, caps)
  }

  function SeparationKey(jobs: map<JobId, Job>): map<JobId, Key>
  {
    map id | id in jobs ::
      Key(if jobs[id].startedAt.None? then 1 else 0,
          if jobs[id].startedAt.None? then 0 else jobs[id].startedAt.value,
          jobs[id].createdAt, id)
  }

  // --- What each call does to the tables --------------------------------------------

  function WithLease(db: Db, l: LeaseId, lease: Lease): Db
  {
    db.(leases := db.leases[l := lease])
  }

  function AfterInsert(db: Db, id: JobId, runner: RunnerId, ttl: int, now: int): Db
  {
    WithLease(db, db.nextLease, Lease(id, runner, now, now, now + ttl, LeaseActive)).(nextLease := db.nextLease + 1)
  }

  function SeparatingAt(db: Db, id: JobId, progress: int, message: Message, now: int): Db
  {
    Queue.AfterTransition(db, id, Separating, progress, message, now)
  }

  function AfterClaim(db: Db, id: JobId, runner: RunnerId, ttl: int, now: int): Db
  {
    SeparatingAt(AfterInsert(db, id, runner, ttl, now), id, 28, Caption(Separating, 28), now)
  }

  /** The lease is there, belongs to the runner and is active. */
  function LeaseError(db: Db, l: LeaseId, runner: RunnerId): Error
  {
    if l !in db.leases then NotFound
    else if db.leases[l].runner != runner then WrongOwner
    else if db.leases[l].state != LeaseActive then NotActive
    else NoError
  }

  function Closed(db: Db, l: LeaseId, state: LeaseState, now: int): Db
    requires l in db.leases
  {
    WithLease(db, l, db.leases[l].(state := state, heartbeatAt := now))
  }

  function Extended(db: Db, l: LeaseId, ttl: int, now: int): Db
    requires l in db.leases
  {
    WithLease(db, l, db.leases[l].(heartbeatAt := now, expiresAt := now + ttl))
  }

  function HeartbeatError(db: Db, l: LeaseId, runner: RunnerId): Error
  {
    if LeaseError(db, l, runner) != NoError then LeaseError(db, l, runner)
    else if db.leases[l].job !in db.jobs then NotFound
    else if db.jobs[db.leases[l].job].status != Separating then JobGone
    else NoError
  }

  function AfterHeartbeat(db: Db, l: LeaseId, runner: RunnerId, fraction: real, transcribing: bool,
                          ttl: int, now: int): Db
  {
    if LeaseError(db, l, runner) != NoError then db
    else
      var id, db1 := db.leases[l].job, Extended(db, l, ttl, now);
      if id !in db.jobs then db1
      else if db.jobs[id].status != Separating then Closed(db1, l, LeaseFailed, now)
      else
        var p := StageProgress(Separating, fraction);
        if p <= db.jobs[id].progress then db1
        else SeparatingAt(db1, id, p, if transcribing then Transcribing else Caption(Separating, p), now)
  }

  /** Attempts used up: the job fails. Otherwise it waits for another runner. */
  function AfterFailure(db: Db, max: int, id: JobId, reason: string, now: int): Db
  {
    var n := Failures(db.leases, id);
    if n >= max
    then Queue.AfterTransition(db, id, Failed, 0, GaveUp(n, Reason(reason)), now)
    else SeparatingAt(db, id, 28, Retrying(n, Reason(reason)), now)
  }

  function Reason(reason: string): string { if reason == "" then "unknown error" else reason }

  function AfterFail(db: Db, max: int, l: LeaseId, runner: RunnerId, reason: string, now: int): Db
  {
    if LeaseError(db, l, runner) != NoError then db
    else AfterFailure(Closed(db, l, LeaseFailed, now), max, db.leases[l].job, reason, now)
  }

  // --- Completing: what must have been delivered -----------------------------------

  function Latest(reported: seq<StemReport>): map<string, StemReport>
  {
    if reported == [] then map[]
    else Latest(reported[..|reported| - 1])[reported[|reported| - 1].name := reported[|reported| - 1]]
  }

  predicate StemsAccepted(reported: seq<StemReport>, want: seq<string>, verify: StemReport -> bool)
  {
    |Latest(reported)| == |want| &&
    forall name :: name in want ==> name in Latest(reported) && verify(Latest(reported)[name])
  }

  const TRANSCRIBE_STEMS := ["drums", "bass", "guitar", "piano"]

  predicate ValidArtifactName(name: string)
  {
    name == "analysis" || exists s :: s in TRANSCRIBE_STEMS && name == "notes/" + s
  }

  ghost predicate Names(artifacts: seq<ArtifactReport>, name: string)
  {
    exists i :: 0 <= i < |artifacts| && artifacts[i].name == name
  }

  ghost predicate ArtifactsAccepted(transcribe: bool, artifacts: seq<ArtifactReport>, verify: ArtifactReport -> bool)
  {
    if !transcribe then artifacts == []
    else
      && (forall i, k :: 0 <= i < k < |artifacts| ==> artifacts[i].name != artifacts[k].name)
      && (forall i :: 0 <= i < |artifacts| ==> ValidArtifactName(artifacts[i].name) && verify(artifacts[i]))
      && Names(artifacts, "analysis")
  }

  ghost function CompleteError(db: Db, l: LeaseId, runner: RunnerId, want: seq<string>,
                               reported: seq<StemReport>, verify: StemReport -> bool,
                               artifacts: seq<ArtifactReport>, verifyArtifact: ArtifactReport -> bool,
                               fault: bool): Error
  {
    if LeaseError(db, l, runner) != NoError then LeaseError(db, l, runner)
    else if db.leases[l].job !in db.jobs then NotFound
    else if db.jobs[db.leases[l].job].status != Separating then JobGone
    else if !StemsAccepted(reported, want, verify) then BadStems
    else if !ArtifactsAccepted(db.jobs[db.leases[l].job].transcribe, artifacts, verifyArtifact) then BadArtifacts
    else if fault then Fault
    else NoError
  }

  /** The tables after a call that ended with e. A transient fault reopens the lease. */
  function AfterComplete(db: Db, l: LeaseId, e: Error, ttl: int, now: int): Db
  {
    if l !in db.leases then db
    else if e == JobGone then Closed(db, l, LeaseFailed, now)
    else if e == Fault then Extended(db, l, ttl, now)
    else if e == NoError then
      Queue.AfterTransition(Closed(db, l, LeaseCompleted, now), db.leases[l].job, Finalizing, 76,
                            Caption(Finalizing, 76), now)
    else db
  }

  // --- Expiry ------------------------------------------------------------------------

  function StaleLeases(db: Db, now: int): set<LeaseId>
  {
    set l | l in db.leases && db.leases[l].state == LeaseActive && db.leases[l].expiresAt < now
  }

  /** The sweeper's UPDATE: every stale lease is expired in one statement. */
  function AfterExpiry(db: Db, now: int): Db
  {
    db.(leases := map l | l in db.leases ::
          if l in StaleLeases(db, now) then db.leases[l].(state := LeaseExpired) else db.leases[l])
  }

  /** The failure policy applied to the jobs of the expired leases, one after the other. */
  function AfterPolicies(db: Db, max: int, jobs: seq<JobId>, now: int): Db
  {
    if jobs == [] then db
    else AfterFailure(AfterPolicies(db, max, jobs[..|jobs| - 1], now), max, jobs[|jobs| - 1], HEARTBEATS_STOPPED, now)
  }

  const HEARTBEATS_STOPPED := "the GPU runner stopped sending heartbeats"

  function JobsOf(db: Db, ls: seq<LeaseId>): seq<JobId>
    requires forall l :: l in ls ==> l in db.leases
  {
    seq(|ls|, i requires 0 <= i < |ls| => db.leases[ls[i]].job)
  }

  function AfterExpireStale(db: Db, max: int, ls: seq<LeaseId>, now: int): Db
    requires forall l :: l in ls ==> l in db.leases
  {
    AfterPolicies(AfterExpiry(db, now), max, JobsOf(db, ls), now)
  }

  // --- The store ------------------------------------------------------------------------

  class Store {
    const db: Database
    const ttl: int
    const max: int

    constructor (db: Database, ttl: int)
      ensures this.db == db && this.ttl == ttl && this.max == 3
    {
      this.db, this.ttl, max := db, ttl, 3;
    }

    /** Picks and leases in one transaction; lost is a 23505 from a racing claim. */
    method TryClaim(runner: RunnerId, caps: Capabilities, lost: bool, now: int)
      returns (e: Error, l: LeaseId, id: JobId)
      modifies db
      ensures e == if OfferedJobs(old(db.Snapshot()), max, caps) == {} then NoJobs
                   else if lost then Fault else NoError
      ensures e != NoError ==> db.Snapshot() == old(db.Snapshot())
      ensures e == NoError ==>
                First(id, OfferedJobs(old(db.Snapshot()), max, caps), SeparationKey(old(db.jobs))) &&
                l == old(db.nextLease) &&
                db.Snapshot() == AfterInsert(old(db.Snapshot()), id, runner, ttl, now)
    {
      l, id := 0, 0;
      ghost var before := db.Snapshot();
      var offered := set j | j in db.jobs && Offered(Db(db.jobs, db.leases, db.events, db.nextEvent, db.nextLease), j, max, caps);
      assert offered == OfferedJobs(before, max, caps);
      if offered == {} {
        e := NoJobs;
        return;
      }
      if lost {
        e := Fault;
        return;
      }
      id := PickFirst(offered, SeparationKey(db.jobs));
      l := db.nextLease;
      db.leases := db.leases[l := Lease(id, runner, now, now, now + ttl, LeaseActive)];
      db.nextLease := l + 1;
      e := NoError;
    }

    /** Retries a lost race up to five times, then moves the job to the start of its band; a fault in
        that move leaves the lease behind. */
    method Claim(runner: RunnerId, caps: Capabilities, races: nat, fault: bool, now: int)
      returns (e: Error, l: LeaseId, id: JobId)
      modifies db
      ensures e == if OfferedJobs(old(db.Snapshot()), max, caps) == {} then NoJobs
                   else if races > 5 || fault then Fault else NoError
      ensures e == NoJobs || races > 5 ==> db.Snapshot() == old(db.Snapshot())
      ensures e != NoJobs && races <= 5 ==>
                First(id, OfferedJobs(old(db.Snapshot()), max, caps), SeparationKey(old(db.jobs))) &&
                l == old(db.nextLease) &&
                db.Snapshot() == if fault then AfterInsert(old(db.Snapshot()), id, runner, ttl, now)
                                 else AfterClaim(old(db.Snapshot()), id, runner, ttl, now)
    {
      var attempt := 0;
      while true
        invariant 0 <= attempt <= 5 && attempt <= races
        invariant db.Snapshot() == old(db.Snapshot())
        invariant attempt > 0 ==> OfferedJobs(old(db.Snapshot()), max, caps) != {}
        decreases 5 - attempt
      {
        e, l, id := TryClaim(runner, caps, attempt < races, now);
        if e == NoError {
          break;
        }
        if e == Fault && attempt < 5 {
          attempt := attempt + 1;
          continue;
        }
        return;
      }
      assert id in db.jobs && db.jobs[id].status == Separating;
      if fault {
        e := Fault;
        return;
      }
      e := Queue.Transition(db, id, Separating, StageStart(Separating), Caption(Separating, StageStart(Separating)), now);
    }

    method Heartbeat(l: LeaseId, runner: RunnerId, progress: real, transcribing: bool, now: int) returns (e: Error)
      modifies db
      ensures e == HeartbeatError(old(db.Snapshot()), l, runner)
      ensures db.Snapshot() == AfterHeartbeat(old(db.Snapshot()), l, runner, progress, transcribing, ttl, now)
    {
      e := Owned(l, runner);
      if e != NoError {
        return;
      }
      db.leases := db.leases[l := db.leases[l].(heartbeatAt := now, expiresAt := now + ttl)];
      var id := db.leases[l].job;
      if id !in db.jobs {
        return NotFound;
      }
      if db.jobs[id].status != Separating {
        var _ := Close(l, LeaseFailed, now);
        return JobGone;
      }
      var p := StageProgress(Separating, progress);
      if p > db.jobs[id].progress {
        var msg := Caption(Separating, p);
        if transcribing {
          msg := Message.Transcribing;
        }
        e := Queue.Transition(db, id, Separating, p, msg, now);
        if e == Terminal {
          return JobGone;
        }
      }
    }

    /** Loads the lease and checks who holds it. */
    method Owned(l: LeaseId, runner: RunnerId) returns (e: Error)
      ensures e == LeaseError(db.Snapshot(), l, runner)
    {
      if l !in db.leases {
        return NotFound;
      }
      if db.leases[l].runner != runner {
        return WrongOwner;
      }
      if db.leases[l].state != LeaseActive {
        return NotActive;
      }
      return NoError;
    }

    /** UPDATE … WHERE state = 'active': acts on an active lease only. */
    method Close(l: LeaseId, state: LeaseState, now: int) returns (e: Error)
      modifies db
      ensures if l in old(db.leases) && old(db.leases[l].state) == LeaseActive
              then e == NoError && db.Snapshot() == Closed(old(db.Snapshot()), l, state, now)
              else e == NotActive && db.Snapshot() == old(db.Snapshot())
    {
      if l !in db.leases || db.leases[l].state != LeaseActive {
        return NotActive;
      }
      db.leases := db.leases[l := db.leases[l].(state := state, heartbeatAt := now)];
      return NoError;
    }

    method CheckStems(want: seq<string>, reported: seq<StemReport>, verify: StemReport -> bool) returns (ok: bool)
      ensures ok == StemsAccepted(reported, want, verify)
    {
      var got: map<string, StemReport> := map[];
      for i := 0 to |reported|
        invariant got == Latest(reported[..i])
      {
        assert reported[..i + 1][..i] == reported[..i];
        got := got[reported[i].name := reported[i]];
      }
      assert reported[..|reported|] == reported;
      if |got| != |want| {
        return false;
      }
      for i := 0 to |want|
        invariant forall k :: 0 <= k < i ==> want[k] in got && verify(got[want[k]])
      {
        if want[i] !in got || !verify(got[want[i]]) {
          return false;
        }
      }
      return true;
    }

    method CheckArtifacts(transcribe: bool, artifacts: seq<ArtifactReport>, verify: ArtifactReport -> bool)
      returns (ok: bool)
      ensures ok == ArtifactsAccepted(transcribe, artifacts, verify)
    {
      if !transcribe {
        return artifacts == [];
      }
      var seen: set<string> := {};
      for i := 0 to |artifacts|
        invariant forall name :: name in seen <==> exists k :: 0 <= k < i && artifacts[k].name == name
        invariant forall a, b :: 0 <= a < b < i ==> artifacts[a].name != artifacts[b].name
        invariant forall k :: 0 <= k < i ==> ValidArtifactName(artifacts[k].name) && verify(artifacts[k])
      {
        var a := artifacts[i];
        if a.name in seen {
          return false;
        }
        seen := seen + {a.name};
        if !ValidArtifactName(a.name) || !verify(a) {
          return false;
        }
      }
      return "analysis" in seen;
    }

    /** Checks what was delivered, closes the lease if it is still active, then hands the job on. */
    method Complete(l: LeaseId, runner: RunnerId, want: seq<string>,
                    reported: seq<StemReport>, verify: StemReport -> bool,
                    artifacts: seq<ArtifactReport>, verifyArtifact: ArtifactReport -> bool,
                    fault: bool, now: int) returns (e: Error)
      modifies db
      ensures e == CompleteError(old(db.Snapshot()), l, runner, want, reported, verify, artifacts, verifyArtifact, fault)
      ensures db.Snapshot() == AfterComplete(old(db.Snapshot()), l, e, ttl, now)
    {
      e := Owned(l, runner);
      if e != NoError {
        return;
      }
      var id := db.leases[l].job;
      if id !in db.jobs {
        return NotFound;
      }
      if db.jobs[id].status != Separating {
        var _ := Close(l, LeaseFailed, now);
        return JobGone;
      }
      var stems := CheckStems(want, reported, verify);
      if !stems {
        return BadStems;
      }
      var delivered := CheckArtifacts(db.jobs[id].transcribe, artifacts, verifyArtifact);
      if !delivered {
        return BadArtifacts;
      }
      e := Close(l, LeaseCompleted, now);
      if e != NoError {
        return;
      }
      if fault {
        // The transition failed for a transient reason: reopen the lease.
        if db.leases[l].state == LeaseCompleted {
          db.leases := db.leases[l := db.leases[l].(state := LeaseActive, heartbeatAt := now, expiresAt := now + ttl)];
        }
        return Fault;
      }
      e := Queue.Transition(db, id, Finalizing, StageStart(Finalizing), Caption(Finalizing, StageStart(Finalizing)), now);
      if e == Terminal {
        return JobGone;
      }
    }

    method Fail(l: LeaseId, runner: RunnerId, reason: string, now: int) returns (e: Error, failed: bool)
      modifies db
      ensures e == LeaseError(old(db.Snapshot()), l, runner)
      ensures db.Snapshot() == AfterFail(old(db.Snapshot()), max, l, runner, reason, now)
      ensures failed <==> e == NoError &&
                          Failures(Closed(old(db.Snapshot()), l, LeaseFailed, now).leases, old(db.leases[l].job)) >= max
    {
      failed := false;
      e := Owned(l, runner);
      if e != NoError {
        return;
      }
      var id := db.leases[l].job;
      e := Close(l, LeaseFailed, now);
      failed := ApplyPolicy(id, reason, now);
    }

    method ApplyPolicy(id: JobId, reason: string, now: int) returns (failed: bool)
      modifies db
      ensures failed <==> Failures(old(db.leases), id) >= max
      ensures db.Snapshot() == AfterFailure(old(db.Snapshot()), max, id, reason, now)
    {
      var dead := set l | l in db.leases && db.leases[l].job == id && IsDead(db.leases[l].state);
      assert dead == DeadOf(db.leases, id);
      var n := |dead|;
      var why := if reason == "" then "unknown error" else reason;
      failed := n >= max;
      if failed {
        var _ := Queue.Transition(db, id, Failed, 0, GaveUp(n, why), now);
      } else {
        var _ := Queue.Transition(db, id, Separating, StageStart(Separating), Retrying(n, why), now);
      }
    }

    method ExpireStale(now: int) returns (ids: seq<LeaseId>)
      modifies db
      ensures Distinct(ids) && Elements(ids) == StaleLeases(old(db.Snapshot()), now)
      ensures forall l :: l in ids ==> l in old(db.leases)
      ensures db.Snapshot() == AfterExpireStale(old(db.Snapshot()), max, ids, now)
    {
      ghost var before := db.Snapshot();
      var stale := set l | l in db.leases && db.leases[l].state == LeaseActive && db.leases[l].expiresAt < now;
      assert stale == StaleLeases(before, now);
      db.leases := map l | l in db.leases :: if l in stale then db.leases[l].(state := LeaseExpired) else db.leases[l];
      assert db.Snapshot() == AfterExpiry(before, now);
      ids := [];
      var jobs: seq<JobId> := [];
      while stale != {}
        invariant stale !! Elements(ids) && stale + Elements(ids) == StaleLeases(before, now)
        invariant Distinct(ids) && (forall l :: l in ids ==> l in before.leases)
        invariant jobs == JobsOf(before, ids)
        invariant db.Snapshot() == AfterExpiry(before, now)
        decreases stale
      {
        var l :| l in stale;
        ghost var done := ids;
        ids, jobs := ids + [l], jobs + [db.leases[l].job];
        assert Elements(ids) == Elements(done) + {l};
        stale := stale - {l};
      }
      for i := 0 to |jobs|
        invariant db.Snapshot() == AfterPolicies(AfterExpiry(before, now), max, jobs[..i], now)
      {
        assert jobs[..i + 1][..i] == jobs[..i];
        var _ := ApplyPolicy(jobs[i], HEARTBEATS_STOPPED, now);
      }
      assert jobs[..|jobs|] == jobs;
    }
  }
}
