/** What every call of the lease store keeps about each job and its leases. */
module LeaseInvariant {
  import opened Prelude
  import opened Stages
  import opened Tables
  import opened Leases
  import Queue

  datatype Counts = Counts(active: nat, dead: nat, completed: nat)

  function CountsOf(leases: LeaseTable, id: JobId): Counts
  {
    Counts(|ActiveOf(leases, id)|, |DeadOf(leases, id)|, |CompletedOf(leases, id)|)
  }

  /** The leases of a job are consistent with a status it may be in. */
  predicate Fits(c: Counts, max: int, status: Status)
  {
    && c.active <= 1
    && c.active + c.dead <= max
    && (c.active > 0 ==> status == Separating || IsTerminal(status))
    && (status == Separating && c.active == 0 ==> c.dead < max)
    && (c.completed > 0 ==> c.active == 0 && Rank(status) > Rank(Separating))
    && (Rank(status) < Rank(Separating) ==> c.active == 0 && c.dead == 0)
  }

  ghost predicate JobFits(db: Db, max: int, id: JobId)
    requires id in db.jobs
  {
    Fits(CountsOf(db.leases, id), max, db.jobs[id].status)
  }

  /** Every lease belongs to an existing job and was issued by the serial. */
  ghost predicate LeasesBelong(db: Db)
  {
    forall l :: l in db.leases ==> db.leases[l].job in db.jobs && l < db.nextLease
  }

  ghost predicate LeasesOk(db: Db, max: int)
  {
    && max >= 1
    && LeasesBelong(db)
    && forall id :: id in db.jobs ==> JobFits(db, max, id)
  }

  // --- How the counts move -------------------------------------------------------

  /** Equal rows of a job are counted equally. */
  lemma SameRowsSameCounts(leases: LeaseTable, leases': LeaseTable, id: JobId)
    requires forall l :: l in leases && leases[l].job == id ==> l in leases' && leases'[l] == leases[l]
    requires forall l :: l in leases' && leases'[l].job == id ==> l in leases
    requires forall l :: l in leases' && leases'[l].job == id ==> leases[l].job == id
    ensures CountsOf(leases', id) == CountsOf(leases, id)
  {
    assert ActiveOf(leases', id) == ActiveOf(leases, id);
    assert DeadOf(leases', id) == DeadOf(leases, id);
    assert CompletedOf(leases', id) == CompletedOf(leases, id);
  }

  /** Writing one lease row touches the counts of its own job only. */
  lemma OtherJobsKeepTheirCounts(leases: LeaseTable, l: LeaseId, lease: Lease, id: JobId)
    requires lease.job != id && (l in leases ==> leases[l].job != id)
    ensures CountsOf(leases[l := lease], id) == CountsOf(leases, id)
  {
    SameRowsSameCounts(leases, leases[l := lease], id);
  }

  lemma InsertCounts(leases: LeaseTable, l: LeaseId, lease: Lease)
    requires l !in leases && lease.state == LeaseActive
    ensures var c := CountsOf(leases, lease.job);
            CountsOf(leases[l := lease], lease.job) == c.(active := c.active + 1)
  {
    var leases', id := leases[l := lease], lease.job;
    assert ActiveOf(leases', id) == ActiveOf(leases, id) + {l};
    assert DeadOf(leases', id) == DeadOf(leases, id);
    assert CompletedOf(leases', id) == CompletedOf(leases, id);
  }

  /** Rewriting an active lease moves it from the active set to the set of its new state. */
  lemma ClosingMoves(leases: LeaseTable, l: LeaseId, lease: Lease)
    requires l in leases && leases[l].state == LeaseActive && leases[l].job == lease.job
    ensures var leases', id := leases[l := lease], lease.job;
            && l in ActiveOf(leases, id) && l !in DeadOf(leases, id) && l !in CompletedOf(leases, id)
            && ActiveOf(leases', id) - {l} == ActiveOf(leases, id) - {l}
            && DeadOf(leases', id) - {l} == DeadOf(leases, id)
            && CompletedOf(leases', id) - {l} == CompletedOf(leases, id)
            && (l in ActiveOf(leases', id) <==> lease.state == LeaseActive)
            && (l in DeadOf(leases', id) <==> IsDead(lease.state))
            && (l in CompletedOf(leases', id) <==> lease.state == LeaseCompleted)
  {
    var leases', id := leases[l := lease], lease.job;
    assert forall k :: k != l ==> (k in leases <==> k in leases') && (k in leases ==> leases'[k] == leases[k]);
  }

  /** Membership of one element decides a cardinality. */
  lemma CardWithout(s: set<LeaseId>, l: LeaseId)
    ensures |s| == |s - {l}| + if l in s then 1 else 0
  {
    if l in s {
      assert s == (s - {l}) + {l};
    } else {
      assert s == s - {l};
    }
  }

  /** An active lease leaves the active count for the count of its new state. */
  lemma ClosingCounts(leases: LeaseTable, l: LeaseId, lease: Lease)
    requires l in leases && leases[l].state == LeaseActive && leases[l].job == lease.job
    ensures CountsOf(leases, lease.job).active > 0
    ensures var c := CountsOf(leases, lease.job);
            CountsOf(leases[l := lease], lease.job) ==
            if lease.state == LeaseActive then c
            else if lease.state == LeaseCompleted then Counts(c.active - 1, c.dead, c.completed + 1)
            else Counts(c.active - 1, c.dead + 1, c.completed)
  {
    var leases', id := leases[l := lease], lease.job;
    ClosingMoves(leases, l, lease);
    CardWithout(ActiveOf(leases, id), l);
    CardWithout(ActiveOf(leases', id), l);
    CardWithout(DeadOf(leases', id), l);
    CardWithout(CompletedOf(leases', id), l);
  }

  /** A job row moves and its leases fit the new status: nothing else is concerned. */
  lemma MoveKeeps(db: Db, max: int, id: JobId, status: Status, progress: int, message: Message, now: int)
    requires max >= 1 && LeasesBelong(db)
    requires forall k :: k in db.jobs && k != id ==> JobFits(db, max, k)
    requires id in db.jobs ==>
               Fits(CountsOf(db.leases, id), max, if IsTerminal(db.jobs[id].status) then db.jobs[id].status else status)
    ensures LeasesOk(Queue.AfterTransition(db, id, status, progress, message, now), max)
  {
    var db' := Queue.AfterTransition(db, id, status, progress, message, now);
    MoveTouchesOneRow(db, id, status, progress, message, now);
    forall k | k in db'.jobs
      ensures JobFits(db', max, k)
    {
      if k != id {
        assert JobFits(db, max, k);
      }
    }
  }

  lemma MoveTouchesOneRow(db: Db, id: JobId, status: Status, progress: int, message: Message, now: int)
    ensures var db' := Queue.AfterTransition(db, id, status, progress, message, now);
            && db'.leases == db.leases && db'.nextLease == db.nextLease && db'.jobs.Keys == db.jobs.Keys
            && (forall k :: k in db.jobs && k != id ==> db'.jobs[k] == db.jobs[k])
            && (id in db.jobs ==> db'.jobs[id].status == if IsTerminal(db.jobs[id].status) then db.jobs[id].status else status)
  {
  }

  /** Writing a lease row of one job: the others still fit. */
  lemma OthersStillFit(db: Db, max: int, l: LeaseId, lease: Lease)
    requires LeasesOk(db, max) && lease.job in db.jobs
    requires l in db.leases ==> db.leases[l].job == lease.job
    ensures forall k :: k in db.jobs && k != lease.job ==> JobFits(WithLease(db, l, lease), max, k)
  {
    forall k | k in db.jobs && k != lease.job
      ensures JobFits(WithLease(db, l, lease), max, k)
    {
      OtherJobsKeepTheirCounts(db.leases, l, lease, k);
    }
  }

  // --- The calls of the store ------------------------------------------------------

  /** A claim gives the job its one active lease and keeps the attempts within the limit. */
  lemma ClaimKeeps(db: Db, max: int, caps: Capabilities, id: JobId, runner: RunnerId, ttl: int, now: int)
    requires LeasesOk(db, max) && Offered(db, id, max, caps)
    ensures LeasesOk(AfterClaim(db, id, runner, ttl, now), max)
    ensures CountsOf(AfterClaim(db, id, runner, ttl, now).leases, id).active == 1
  {
    UnmovedClaimKeeps(db, max, caps, id, runner, ttl, now);
    var mid := AfterInsert(db, id, runner, ttl, now);
    assert JobFits(mid, max, id);
    MoveKeeps(mid, max, id, Separating, 28, Caption(Separating, 28), now);
  }

  /** So does a claim whose move of the job failed: the lease is there and will expire. */
  lemma UnmovedClaimKeeps(db: Db, max: int, caps: Capabilities, id: JobId, runner: RunnerId, ttl: int, now: int)
    requires LeasesOk(db, max) && Offered(db, id, max, caps)
    ensures LeasesOk(AfterInsert(db, id, runner, ttl, now), max)
    ensures CountsOf(AfterInsert(db, id, runner, ttl, now).leases, id).active == 1
  {
    var lease := Lease(id, runner, now, now, now + ttl, LeaseActive);
    assert db.nextLease !in db.leases;
    InsertCounts(db.leases, db.nextLease, lease);
    OthersStillFit(db, max, db.nextLease, lease);
    assert JobFits(db, max, id);
  }

  /** An active lease is that of a separating or finished job with no completed lease. */
  lemma ActiveLease(db: Db, max: int, l: LeaseId)
    requires LeasesOk(db, max) && l in db.leases && db.leases[l].state == LeaseActive
    ensures var id := db.leases[l].job; var c := CountsOf(db.leases, id);
            id in db.jobs && c.active == 1 && c.completed == 0 && c.dead < max &&
            (db.jobs[id].status == Separating || IsTerminal(db.jobs[id].status))
  {
    ClosingCounts(db.leases, l, db.leases[l]);
    assert JobFits(db, max, db.leases[l].job);
  }

  /** A job never has two active leases. */
  lemma OneActiveLease(db: Db, max: int, l: LeaseId, k: LeaseId)
    requires LeasesOk(db, max) && l in db.leases && k in db.leases
    requires db.leases[l].state == LeaseActive && db.leases[k].state == LeaseActive
    requires db.leases[l].job == db.leases[k].job
    ensures l == k
  {
    ActiveLease(db, max, l);
    SubsetCard({l, k}, ActiveOf(db.leases, db.leases[l].job));
  }

  lemma ExtendKeeps(db: Db, max: int, l: LeaseId, ttl: int, now: int)
    requires LeasesOk(db, max) && l in db.leases && db.leases[l].state == LeaseActive
    ensures LeasesOk(Extended(db, l, ttl, now), max)
  {
    var lease := db.leases[l].(heartbeatAt := now, expiresAt := now + ttl);
    ClosingCounts(db.leases, l, lease);
    OthersStillFit(db, max, l, lease);
    assert JobFits(db, max, lease.job);
  }

  /** A finished job may lose its lease. */
  lemma ClosingOnFinishedJobKeeps(db: Db, max: int, l: LeaseId, now: int)
    requires LeasesOk(db, max) && l in db.leases && db.leases[l].state == LeaseActive
    requires IsTerminal(db.jobs[db.leases[l].job].status)
    ensures LeasesOk(Closed(db, l, LeaseFailed, now), max)
  {
    var lease := db.leases[l].(state := LeaseFailed, heartbeatAt := now);
    ClosingCounts(db.leases, l, lease);
    OthersStillFit(db, max, l, lease);
    assert JobFits(db, max, lease.job);
  }

  lemma HeartbeatKeeps(db: Db, max: int, l: LeaseId, runner: RunnerId, fraction: real, transcribing: bool, ttl: int, now: int)
    requires LeasesOk(db, max)
    ensures LeasesOk(AfterHeartbeat(db, l, runner, fraction, transcribing, ttl, now), max)
  {
    if LeaseError(db, l, runner) == NoError {
      ActiveLease(db, max, l);
      ExtendKeeps(db, max, l, ttl, now);
      var id, mid := db.leases[l].job, Extended(db, l, ttl, now);
      if db.jobs[id].status != Separating {
        ClosingOnFinishedJobKeeps(mid, max, l, now);
      } else {
        var p := StageProgress(Separating, fraction);
        assert JobFits(mid, max, id);
        MoveKeeps(mid, max, id, Separating, p, if transcribing then Transcribing else Caption(Separating, p), now);
      }
    }
  }

  /** Between the closing of its lease and the policy, a job may be out of step, no other is. */
  ghost predicate AwaitsPolicy(db: Db, max: int, id: JobId)
  {
    && id in db.jobs && (db.jobs[id].status == Separating || IsTerminal(db.jobs[id].status))
    && var c := CountsOf(db.leases, id); c.active == 0 && c.completed == 0 && c.dead <= max
  }

  /** The policy repairs such a job: it fails it or leaves it attempts over. */
  lemma PolicyKeeps(db: Db, max: int, id: JobId, reason: string, now: int)
    requires max >= 1 && LeasesBelong(db) && AwaitsPolicy(db, max, id)
    requires forall k :: k in db.jobs && k != id ==> JobFits(db, max, k)
    ensures LeasesOk(AfterFailure(db, max, id, reason, now), max)
  {
    var n := Failures(db.leases, id);
    if n >= max {
      MoveKeeps(db, max, id, Failed, 0, GaveUp(n, Reason(reason)), now);
    } else {
      MoveKeeps(db, max, id, Separating, 28, Retrying(n, Reason(reason)), now);
    }
  }

  lemma FailKeeps(db: Db, max: int, l: LeaseId, runner: RunnerId, reason: string, now: int)
    requires LeasesOk(db, max)
    ensures LeasesOk(AfterFail(db, max, l, runner, reason, now), max)
  {
    if LeaseError(db, l, runner) == NoError {
      var lease := db.leases[l].(state := LeaseFailed, heartbeatAt := now);
      ActiveLease(db, max, l);
      ClosingCounts(db.leases, l, lease);
      OthersStillFit(db, max, l, lease);
      PolicyKeeps(Closed(db, l, LeaseFailed, now), max, lease.job, reason, now);
    }
  }

  /** What a completed call may have seen, whatever the runner delivered. */
  ghost predicate CompleteOutcome(db: Db, l: LeaseId, e: Error)
  {
    e in {JobGone, Fault, NoError} ==>
      && l in db.leases && db.leases[l].state == LeaseActive && db.leases[l].job in db.jobs
      && (e == JobGone <==> db.jobs[db.leases[l].job].status != Separating)
  }

  /** Whatever Complete answers, in its own order of checks, is such an outcome. */
  lemma CompletionIsAnOutcome(db: Db, l: LeaseId, runner: RunnerId, want: seq<string>,
                              reported: seq<StemReport>, verify: StemReport -> bool,
                              artifacts: seq<ArtifactReport>, verifyArtifact: ArtifactReport -> bool, fault: bool)
    ensures CompleteOutcome(db, l, CompleteError(db, l, runner, want, reported, verify, artifacts, verifyArtifact, fault))
  {
  }

  /** Only a separating job is completed, and completing ends its last lease for good. */
  lemma CompleteKeeps(db: Db, max: int, l: LeaseId, e: Error, ttl: int, now: int)
    requires LeasesOk(db, max) && CompleteOutcome(db, l, e)
    ensures LeasesOk(AfterComplete(db, l, e, ttl, now), max)
  {
    if e == JobGone {
      ActiveLease(db, max, l);
      ClosingOnFinishedJobKeeps(db, max, l, now);
    } else if e == Fault {
      ExtendKeeps(db, max, l, ttl, now);
    } else if e == NoError {
      SuccessKeeps(db, max, l, now);
    }
  }

  lemma SuccessKeeps(db: Db, max: int, l: LeaseId, now: int)
    requires LeasesOk(db, max) && l in db.leases && db.leases[l].state == LeaseActive
    requires db.leases[l].job in db.jobs && db.jobs[db.leases[l].job].status == Separating
    ensures LeasesOk(Queue.AfterTransition(Closed(db, l, LeaseCompleted, now), db.leases[l].job, Finalizing, 76,
                                           Caption(Finalizing, 76), now), max)
  {
    var lease := db.leases[l].(state := LeaseCompleted, heartbeatAt := now);
    OthersStillFit(db, max, l, lease);
    CompletingFits(db, max, l, lease);
    MoveKeeps(Closed(db, l, LeaseCompleted, now), max, lease.job, Finalizing, 76, Caption(Finalizing, 76), now);
  }

  /** The last lease of a separating job, completed, fits the next stage. */
  lemma CompletingFits(db: Db, max: int, l: LeaseId, lease: Lease)
    requires LeasesOk(db, max) && l in db.leases && db.leases[l].state == LeaseActive
    requires lease.job == db.leases[l].job && lease.state == LeaseCompleted
    ensures Fits(CountsOf(db.leases[l := lease], lease.job), max, Finalizing)
  {
    ActiveLease(db, max, l);
    ClosingCounts(db.leases, l, lease);
  }

  // --- The expiry sweep: one UPDATE, then the policy job by job ----------------------

  /** Exactly the jobs still to do may be out of step. */
  ghost predicate Sweeping(db: Db, max: int, todo: set<JobId>)
  {
    && max >= 1 && LeasesBelong(db)
    && (forall id :: id in db.jobs && id !in todo ==> JobFits(db, max, id))
    && (forall id :: id in todo ==> AwaitsPolicy(db, max, id))
  }

  function StaleJobs(db: Db, now: int): set<JobId>
  {
    set l | l in StaleLeases(db, now) :: db.leases[l].job
  }

  /** Expiring the one active lease of a job counts it as a failure. */
  lemma ExpiryCounts(db: Db, max: int, l: LeaseId, now: int)
    requires LeasesOk(db, max) && l in StaleLeases(db, now)
    ensures AwaitsPolicy(AfterExpiry(db, now), max, db.leases[l].job)
  {
    var leases, leases', id := db.leases, AfterExpiry(db, now).leases, db.leases[l].job;
    ActiveLease(db, max, l);
    forall k | k in leases && leases[k].job == id && leases[k].state == LeaseActive
      ensures k == l
    {
      OneActiveLease(db, max, l, k);
    }
    ExpiryMoves(db, l, now);
  }

  lemma ExpiryMoves(db: Db, l: LeaseId, now: int)
    requires l in StaleLeases(db, now)
    requires forall k :: k in db.leases && db.leases[k].job == db.leases[l].job && db.leases[k].state == LeaseActive ==> k == l
    ensures var id, leases' := db.leases[l].job, AfterExpiry(db, now).leases;
            && ActiveOf(leases', id) == {} && DeadOf(leases', id) == DeadOf(db.leases, id) + {l}
            && CompletedOf(leases', id) == CompletedOf(db.leases, id)
  {
  }

  lemma ExpirySparesOthers(db: Db, max: int, id: JobId, now: int)
    requires LeasesOk(db, max) && id in db.jobs && id !in StaleJobs(db, now)
    ensures JobFits(AfterExpiry(db, now), max, id)
  {
    assert forall l :: l in StaleLeases(db, now) ==> db.leases[l].job in StaleJobs(db, now);
    assert JobFits(db, max, id);
    SameRowsSameCounts(db.leases, AfterExpiry(db, now).leases, id);
  }

  lemma ExpiryStartsSweep(db: Db, max: int, now: int)
    requires LeasesOk(db, max)
    ensures Sweeping(AfterExpiry(db, now), max, StaleJobs(db, now))
  {
    var db' := AfterExpiry(db, now);
    forall id | id in StaleJobs(db, now)
      ensures AwaitsPolicy(db', max, id)
    {
      var l :| l in StaleLeases(db, now) && db.leases[l].job == id;
      ExpiryCounts(db, max, l, now);
    }
    forall id | id in db'.jobs && id !in StaleJobs(db, now)
      ensures JobFits(db', max, id)
    {
      ExpirySparesOthers(db, max, id, now);
    }
  }

  lemma PolicyAdvancesSweep(db: Db, max: int, todo: set<JobId>, id: JobId, now: int)
    requires Sweeping(db, max, todo) && id in todo
    ensures Sweeping(AfterFailure(db, max, id, HEARTBEATS_STOPPED, now), max, todo - {id})
  {
    var db' := AfterFailure(db, max, id, HEARTBEATS_STOPPED, now);
    assert AwaitsPolicy(db, max, id);
    PolicySettles(db, max, id, HEARTBEATS_STOPPED, now);
    forall k | k in db'.jobs && k !in todo - {id}
      ensures JobFits(db', max, k)
    {
      assert k != id ==> JobFits(db, max, k);
    }
    forall k | k in todo - {id}
      ensures AwaitsPolicy(db', max, k)
    {
      assert AwaitsPolicy(db, max, k);
    }
  }

  /** The policy puts its own job right and touches no other. */
  lemma PolicySettles(db: Db, max: int, id: JobId, reason: string, now: int)
    requires max >= 1 && AwaitsPolicy(db, max, id)
    ensures var db' := AfterFailure(db, max, id, reason, now);
            && db'.leases == db.leases && db'.nextLease == db.nextLease && db'.jobs.Keys == db.jobs.Keys
            && (forall k :: k in db.jobs && k != id ==> db'.jobs[k] == db.jobs[k])
            && JobFits(db', max, id)
  {
    var n := Failures(db.leases, id);
    if n >= max {
      MoveTouchesOneRow(db, id, Failed, 0, GaveUp(n, Reason(reason)), now);
    } else {
      MoveTouchesOneRow(db, id, Separating, 28, Retrying(n, Reason(reason)), now);
    }
  }

  lemma {:induction false} PoliciesFinishSweep(db: Db, max: int, jobs: seq<JobId>, todo: set<JobId>, now: int)
    requires Sweeping(db, max, todo) && Distinct(jobs) && Elements(jobs) <= todo
    ensures Sweeping(AfterPolicies(db, max, jobs, now), max, todo - Elements(jobs))
  {
    if jobs == [] {
      assert todo - Elements(jobs) == todo;
    } else {
      var init, last := jobs[..|jobs| - 1], jobs[|jobs| - 1];
      assert jobs == init + [last];
      assert Elements(jobs) == Elements(init) + {last} && last !in Elements(init);
      PoliciesFinishSweep(db, max, init, todo, now);
      PolicyAdvancesSweep(AfterPolicies(db, max, init, now), max, todo - Elements(init), last, now);
      assert todo - Elements(init) - {last} == todo - Elements(jobs);
    }
  }

  /** The stale leases belong to as many different jobs. */
  lemma StaleJobsAreDistinct(db: Db, max: int, ls: seq<LeaseId>, now: int)
    requires LeasesOk(db, max) && Distinct(ls) && Elements(ls) == StaleLeases(db, now)
    requires forall l :: l in ls ==> l in db.leases
    ensures Distinct(JobsOf(db, ls)) && Elements(JobsOf(db, ls)) == StaleJobs(db, now)
  {
    var jobs := JobsOf(db, ls);
    assert forall i :: 0 <= i < |ls| ==> ls[i] in Elements(ls);
    forall i, k | 0 <= i < k < |jobs|
      ensures jobs[i] != jobs[k]
    {
      if jobs[i] == jobs[k] {
        OneActiveLease(db, max, ls[i], ls[k]);
      }
    }
    forall id | id in StaleJobs(db, now)
      ensures id in jobs
    {
      var l :| l in StaleLeases(db, now) && db.leases[l].job == id;
      assert l in Elements(ls);
      var i :| 0 <= i < |ls| && ls[i] == l;
      assert jobs[i] == id;
    }
  }

  lemma ExpireStaleKeeps(db: Db, max: int, ls: seq<LeaseId>, now: int)
    requires LeasesOk(db, max) && Distinct(ls) && Elements(ls) == StaleLeases(db, now)
    requires forall l :: l in ls ==> l in db.leases
    ensures LeasesOk(AfterExpireStale(db, max, ls, now), max)
  {
    ExpiryStartsSweep(db, max, now);
    StaleJobsAreDistinct(db, max, ls, now);
    PoliciesFinishSweep(AfterExpiry(db, now), max, JobsOf(db, ls), StaleJobs(db, now), now);
  }

  // --- Rows come and go ----------------------------------------------------------------

  lemma CreateKeeps(db: Db, max: int, id: JobId, j: Job, now: int)
    requires LeasesOk(db, max) && id !in db.jobs && j.status == Pending
    ensures LeasesOk(Queue.AfterCreate(db, id, j, now), max)
  {
    assert ActiveOf(db.leases, id) == {} && DeadOf(db.leases, id) == {} && CompletedOf(db.leases, id) == {};
  }

  lemma IntakeKeeps(db: Db, max: int, id: JobId, now: int)
    requires LeasesOk(db, max) && id in Queue.PendingJobs(db)
    ensures LeasesOk(Queue.AfterClaim(db, id, now), max)
  {
    assert JobFits(db, max, id);
  }

  lemma DeleteKeeps(db: Db, max: int, gone: set<JobId>)
    requires LeasesOk(db, max)
    ensures LeasesOk(Queue.AfterDelete(db, gone), max)
  {
    var db' := Queue.AfterDelete(db, gone);
    forall k | k in db'.jobs
      ensures JobFits(db', max, k)
    {
      assert JobFits(db, max, k);
      SameRowsSameCounts(db.leases, db'.leases, k);
    }
  }

  // --- Where the promise ends ---------------------------------------------------------------

  /** When a database fault swallows the policy's transition, the job is stranded
      exactly if it was separating on its last attempt. */
  lemma LostPolicyStrandsTheLastAttempt(db: Db, max: int, l: LeaseId, now: int)
    requires LeasesOk(db, max) && l in db.leases && db.leases[l].state == LeaseActive
    ensures var id := db.leases[l].job;
            LeasesOk(Closed(db, l, LeaseFailed, now), max) <==>
            !(db.jobs[id].status == Separating && Failures(db.leases, id) + 1 >= max)
  {
    var lease := db.leases[l].(state := LeaseFailed, heartbeatAt := now);
    var db', id := Closed(db, l, LeaseFailed, now), lease.job;
    ActiveLease(db, max, l);
    ClosingCounts(db.leases, l, lease);
    OthersStillFit(db, max, l, lease);
    assert LeasesBelong(db');
    assert LeasesOk(db', max) ==> JobFits(db', max, id);
    assert JobFits(db', max, id) <==> !(db.jobs[id].status == Separating && Failures(db.leases, id) + 1 >= max);
  }
}
