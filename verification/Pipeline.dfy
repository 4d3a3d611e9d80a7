/**
 The whole service as one state machine: the tables, the advisory locks and the
 worker goroutines. Each step is one method of a store or of a worker; any
 number of processes interleave them in any order.
 */
module Pipeline {
  import opened Prelude
  import opened Stages
  import opened Tables
  import L = Leases
  import LI = LeaseInvariant
  import Queue

  /** A goroutine: one that a process's intake loop started, or the process's resume loop. */
  datatype Gid = Intake(proc: nat, n: nat) | Resume(proc: nat)

  datatype Pc =
    | Claimed(job: JobId)                                  // claimed from the queue, no lock yet
    | Requeue(job: JobId)                                  // found the lock taken
    | Locked(job: JobId)                                   // resume loop: lock held, row not re-read yet
    | Driving(job: JobId, stage: Status)                   // running a stage under the lock
    | Releasing(job: JobId)                                // done with the job, about to unlock

  /** `slots`: how many messages each process's slots channel holds. */
  datatype Sys = Sys(db: Db, locks: map<int, Gid>, pcs: map<Gid, Pc>, seen: set<JobId>, slots: map<nat, int>)

  /** What never changes: attempts per job, lease time, slots per process, the lock key of a job. */
  datatype Setup = Setup(max: int, ttl: int, slots: nat, key: JobId -> int)

  datatype Act =
    | CreateJob(id: JobId, quality: string, stack: string, model: Option<string>, transcribe: bool, expiresAt: int)
    | IntakeClaim(g: Gid, id: JobId)
    | IntakeLock(g: Gid)
    | IntakeLockError(g: Gid)
    | IntakeRequeue(g: Gid)
    | ResumeLock(g: Gid, id: JobId)
    | ResumeRead(g: Gid)
    | Report(g: Gid, fraction: real)
    | Advance(g: Gid)
    | StageFails(g: Gid, text: string)
    | Shutdown(g: Gid)
    | Unlock(g: Gid)
    | Crash(g: Gid)
    | GpuClaim(id: JobId, runner: RunnerId, caps: L.Capabilities, fault: bool)    // fault: in the job's move
    | Heartbeat(l: LeaseId, runner: RunnerId, fraction: real, transcribing: bool)
    | Complete(l: LeaseId, runner: RunnerId, outcome: Error)
    | Fail(l: LeaseId, runner: RunnerId, reason: string)
    | ExpireStale(ls: seq<LeaseId>)
    | CancelJob(id: JobId)
    | FailJob(id: JobId, message: Message)                 // GPU-wait watchdog, stalled-job sweeper
    | DeleteJobs(gone: set<JobId>)

  // --- One step -----------------------------------------------------------------------

  predicate Holds(pc: Pc) { pc.Locked? || pc.Driving? || pc.Releasing? }

  /** Has a claim on what happens to the job next. */
  predicate Works(pc: Pc) { pc.Claimed? || pc.Requeue? || pc.Driving? }

  function At(s: Sys, g: Gid, pc: Pc): Sys { s.(pcs := s.pcs[g := pc]) }

  /** The messages in a process's slots channel. */
  function Taken(slots: map<nat, int>, proc: nat): int { if proc in slots then slots[proc] else 0 }

  /** A goroutine returns; one of the intake loop receives from the slots channel first. */
  function Gone(s: Sys, g: Gid): Sys
  {
    s.(pcs := s.pcs - {g}, slots := if g.Intake? then s.slots[g.proc := Taken(s.slots, g.proc) - 1] else s.slots)
  }

  function NextStage(stage: Status): Status
  {
    match stage
    case Converting => Analyzing
    case Analyzing => Separating
    case Finalizing => Packaging
    case _ => Completed
  }

  /** The worker's transition: a job that ended or vanished meanwhile ends the run. */
  function Moves(s: Sys, g: Gid, status: Status, progress: int, message: Message, next: Pc, now: int): Sys
    requires g in s.pcs
  {
    var id := s.pcs[g].job;
    At(s.(db := Queue.AfterTransition(s.db, id, status, progress, message, now)), g,
       if Queue.TransitionError(s.db, id) == NoError then next else Releasing(id))
  }

  ghost function IntakeStep(c: Setup, s: Sys, a: Act, now: int): Sys
    requires a.IntakeClaim? || a.IntakeLock? || a.IntakeLockError? || a.IntakeRequeue?
  {
    match a
    case IntakeClaim(g, id) =>
      // The send on the slots channel blocks while the channel is full.
      if g.Intake? && Taken(s.slots, g.proc) < c.slots && g !in s.pcs &&
         First(id, Queue.PendingJobs(s.db), Queue.QueueKey(s.db.jobs))
      then At(s.(db := Queue.AfterClaim(s.db, id, now), slots := s.slots[g.proc := Taken(s.slots, g.proc) + 1]), g, Claimed(id))
      else s
    case IntakeLock(g) =>
      if g in s.pcs && s.pcs[g].Claimed? then
        var id := s.pcs[g].job;
        if c.key(id) in s.locks then At(s, g, Requeue(id))
        else At(s.(locks := s.locks[c.key(id) := g]), g, Driving(id, Converting))
      else s
    case IntakeLockError(g) =>
      if g in s.pcs && s.pcs[g].Claimed? then Gone(s, g) else s
    case IntakeRequeue(g) =>
      if g in s.pcs && s.pcs[g].Requeue?
      then Gone(s.(db := Queue.AfterTransition(s.db, s.pcs[g].job, Pending, 0, Caption(Pending, 0), now)), g)
      else s
  }

  ghost function DriveStep(c: Setup, s: Sys, a: Act, now: int): Sys
    requires a.Report? || a.Advance? || a.StageFails? || a.Shutdown?
  {
    if a.g !in s.pcs || !s.pcs[a.g].Driving? then s
    else
      var id, stage := s.pcs[a.g].job, s.pcs[a.g].stage;
      match a
      case Report(g, fraction) =>
        Moves(s, g, stage, StageProgress(stage, fraction), Caption(stage, StageProgress(stage, fraction)), s.pcs[g], now)
      case Advance(g) =>
        var next := NextStage(stage);
        Moves(s, g, next, StageStart(next), Caption(next, StageStart(next)),
              if next == Separating || next == Completed then Releasing(id) else Driving(id, next), now)
      case StageFails(g, text) =>
        Moves(s, g, Failed, 0, StageError(text), Releasing(id), now)
      case Shutdown(g) =>
        if id in s.db.jobs && (s.db.jobs[id].status == Converting || s.db.jobs[id].status == Analyzing)
        then Moves(s, g, Pending, 0, Caption(Pending, 0), Releasing(id), now)
        else At(s, g, Releasing(id))
  }

  function Unlocked(c: Setup, s: Sys, g: Gid): Sys
    requires g in s.pcs
  {
    Gone(if Holds(s.pcs[g]) then s.(locks := s.locks - {c.key(s.pcs[g].job)}) else s, g)
  }

  ghost function LockStep(c: Setup, s: Sys, a: Act): Sys
    requires a.ResumeLock? || a.ResumeRead? || a.Unlock? || a.Crash?
  {
    match a
    case ResumeLock(g, id) =>
      if g.Resume? && g !in s.pcs && c.key(id) !in s.locks
      then At(s.(locks := s.locks[c.key(id) := g]), g, Locked(id)) else s
    case ResumeRead(g) =>
      if g in s.pcs && s.pcs[g].Locked? then
        var id := s.pcs[g].job;
        if id in s.db.jobs && (s.db.jobs[id].status == Finalizing || s.db.jobs[id].status == Packaging)
        then At(s, g, Driving(id, s.db.jobs[id].status)) else At(s, g, Releasing(id))
      else s
    case Unlock(g) =>
      if g in s.pcs && s.pcs[g].Releasing? then Unlocked(c, s, g) else s
    case Crash(g) =>
      if g in s.pcs then Unlocked(c, s, g) else s
  }

  predicate OnTables(a: Act)
  {
    a.GpuClaim? || a.Heartbeat? || a.Complete? || a.Fail? || a.ExpireStale? || a.CancelJob? || a.FailJob? || a.DeleteJobs?
  }

  /** The statements of the lease store and of the sweepers. */
  ghost function TableStep(c: Setup, db: Db, a: Act, now: int): Db
    requires OnTables(a)
  {
    match a
    case GpuClaim(id, runner, caps, fault) =>
      if First(id, L.OfferedJobs(db, c.max, caps), L.SeparationKey(db.jobs))
      then (if fault then L.AfterInsert(db, id, runner, c.ttl, now) else L.AfterClaim(db, id, runner, c.ttl, now)) else db
    case Heartbeat(l, runner, fraction, transcribing) =>
      L.AfterHeartbeat(db, l, runner, fraction, transcribing, c.ttl, now)
    case Complete(l, runner, outcome) =>
      if LI.CompleteOutcome(db, l, outcome) then L.AfterComplete(db, l, outcome, c.ttl, now) else db
    case Fail(l, runner, reason) =>
      L.AfterFail(db, c.max, l, runner, reason, now)
    case ExpireStale(ls) =>
      if Distinct(ls) && Elements(ls) == L.StaleLeases(db, now) && (forall l :: l in ls ==> l in db.leases)
      then L.AfterExpireStale(db, c.max, ls, now) else db
    case CancelJob(id) => Queue.AfterTransition(db, id, Cancelled, 0, CancelledByUser, now)
    case FailJob(id, message) => Queue.AfterTransition(db, id, Failed, 0, message, now)
    case DeleteJobs(gone) => Queue.AfterDelete(db, gone)
  }

  ghost function Step(c: Setup, s: Sys, a: Act, now: int): Sys
  {
    match a
    case CreateJob(id, quality, stack, model, transcribe, expiresAt) =>
      if id in s.seen then s
      else s.(db := Queue.AfterCreate(s.db, id, Queue.NewJob(quality, stack, model, transcribe, expiresAt, now), now),
              seen := s.seen + {id})
    case IntakeClaim(_, _) => IntakeStep(c, s, a, now)
    case IntakeLock(_) => IntakeStep(c, s, a, now)
    case IntakeLockError(_) => IntakeStep(c, s, a, now)
    case IntakeRequeue(_) => IntakeStep(c, s, a, now)
    case Report(_, _) => DriveStep(c, s, a, now)
    case Advance(_) => DriveStep(c, s, a, now)
    case StageFails(_, _) => DriveStep(c, s, a, now)
    case Shutdown(_) => DriveStep(c, s, a, now)
    case ResumeLock(_, _) => LockStep(c, s, a)
    case ResumeRead(_) => LockStep(c, s, a)
    case Unlock(_) => LockStep(c, s, a)
    case Crash(_) => LockStep(c, s, a)
    case _ => s.(db := TableStep(c, s.db, a, now))
  }

  /** A run: any acts at any times, from empty tables. */
  ghost function Run(c: Setup, acts: seq<(Act, int)>): Sys
  {
    if acts == [] then Sys(Db(map[], map[], map[], 1, 1), map[], map[], {}, map[])
    else var (a, now) := acts[|acts| - 1]; Step(c, Run(c, acts[..|acts| - 1]), a, now)
  }

  // --- What holds in every reachable state --------------------------------------------

  /** What a goroutine believes about its job is true, unless the job has ended or is gone. */
  ghost predicate PcOk(db: Db, seen: set<JobId>, pc: Pc)
  {
    && (Works(pc) ==> pc.job in seen)
    && (pc.Driving? ==> pc.stage in {Converting, Analyzing, Finalizing, Packaging})
    && (Works(pc) && pc.job in db.jobs ==>
          IsTerminal(db.jobs[pc.job].status) ||
          db.jobs[pc.job].status == if pc.Driving? then pc.stage else Converting)
  }

  ghost predicate LocksOk(c: Setup, locks: map<int, Gid>, pcs: map<Gid, Pc>)
  {
    && (forall g :: g in pcs && Holds(pcs[g]) ==> c.key(pcs[g].job) in locks && locks[c.key(pcs[g].job)] == g)
    && (forall k :: k in locks ==> locks[k] in pcs && Holds(pcs[locks[k]]) && c.key(pcs[locks[k]].job) == k)
  }

  ghost predicate Alone(pcs: map<Gid, Pc>)
  {
    forall g, h :: g in pcs && h in pcs && g != h && Works(pcs[g]) && Works(pcs[h]) ==> pcs[g].job != pcs[h].job
  }

  ghost predicate WorkersOk(s: Sys)
  {
    && s.db.jobs.Keys <= s.seen
    && (forall g :: g in s.pcs ==> PcOk(s.db, s.seen, s.pcs[g]))
    && Alone(s.pcs)
  }

  ghost predicate TablesOk(c: Setup, db: Db)
  {
    Queue.LogOk(db) && LI.LeasesOk(db, c.max)
  }

  function IntakesOf(pcs: map<Gid, Pc>, proc: nat): set<Gid>
  {
    set g | g in pcs && g.Intake? && g.proc == proc
  }

  /** Each process's channel holds a message for every goroutine its intake loop started. */
  ghost predicate SlotsOk(c: Setup, pcs: map<Gid, Pc>, slots: map<nat, int>)
  {
    forall proc :: |IntakesOf(pcs, proc)| == Taken(slots, proc) <= c.slots
  }

  ghost predicate Inv(c: Setup, s: Sys)
  {
    TablesOk(c, s.db) && LocksOk(c, s.locks, s.pcs) && WorkersOk(s) && SlotsOk(c, s.pcs, s.slots)
  }

  // --- Slots -------------------------------------------------------------------------------

  lemma OneLeaves(pcs: map<Gid, Pc>, g: Gid, proc: nat)
    requires g in pcs
    ensures |IntakesOf(pcs, proc)| == |IntakesOf(pcs - {g}, proc)| + if g.Intake? && g.proc == proc then 1 else 0
  {
    if g.Intake? && g.proc == proc {
      assert IntakesOf(pcs, proc) == IntakesOf(pcs - {g}, proc) + {g};
    } else {
      assert IntakesOf(pcs, proc) == IntakesOf(pcs - {g}, proc);
    }
  }

  lemma GoroutineReturns(c: Setup, s: Sys, g: Gid)
    requires SlotsOk(c, s.pcs, s.slots) && g in s.pcs
    ensures SlotsOk(c, Gone(s, g).pcs, Gone(s, g).slots)
  {
    forall proc
      ensures |IntakesOf(Gone(s, g).pcs, proc)| == Taken(Gone(s, g).slots, proc) <= c.slots
    {
      assert |IntakesOf(s.pcs, proc)| == Taken(s.slots, proc) <= c.slots;
      OneLeaves(s.pcs, g, proc);
    }
  }

  lemma GoroutineStarts(c: Setup, s: Sys, g: Gid, pc: Pc)
    requires SlotsOk(c, s.pcs, s.slots) && g.Intake? && g !in s.pcs && Taken(s.slots, g.proc) < c.slots
    ensures SlotsOk(c, s.pcs[g := pc], s.slots[g.proc := Taken(s.slots, g.proc) + 1])
  {
    var pcs', slots' := s.pcs[g := pc], s.slots[g.proc := Taken(s.slots, g.proc) + 1];
    forall proc
      ensures |IntakesOf(pcs', proc)| == Taken(slots', proc) <= c.slots
    {
      assert |IntakesOf(s.pcs, proc)| == Taken(s.slots, proc) <= c.slots;
      if g.proc == proc {
        assert IntakesOf(pcs', proc) == IntakesOf(s.pcs, proc) + {g};
      } else {
        assert IntakesOf(pcs', proc) == IntakesOf(s.pcs, proc);
      }
    }
  }

  lemma SameGoroutines(c: Setup, pcs: map<Gid, Pc>, pcs': map<Gid, Pc>, slots: map<nat, int>)
    requires SlotsOk(c, pcs, slots) && forall g: Gid :: g.Intake? ==> (g in pcs' <==> g in pcs)
    ensures SlotsOk(c, pcs', slots)
  {
    forall proc
      ensures |IntakesOf(pcs', proc)| == Taken(slots, proc) <= c.slots
    {
      assert |IntakesOf(pcs, proc)| == Taken(slots, proc) <= c.slots;
      assert IntakesOf(pcs', proc) == IntakesOf(pcs, proc);
    }
  }

  /** What a step does to the goroutines of the intake loops. */
  lemma SlotsMove(c: Setup, s: Sys, a: Act, now: int)
    ensures var s' := Step(c, s, a, now);
            || (s'.slots == s.slots && forall g: Gid :: g.Intake? ==> (g in s'.pcs <==> g in s.pcs))
            || (a.IntakeClaim? && a.g.Intake? && a.g !in s.pcs && Taken(s.slots, a.g.proc) < c.slots
                && s'.pcs == s.pcs[a.g := Claimed(a.id)] && s'.slots == s.slots[a.g.proc := Taken(s.slots, a.g.proc) + 1])
            || ((a.IntakeLockError? || a.IntakeRequeue? || a.Unlock? || a.Crash?) && a.g in s.pcs
                && s'.pcs == Gone(s, a.g).pcs && s'.slots == Gone(s, a.g).slots)
  {
  }

  lemma SlotsKept(c: Setup, s: Sys, a: Act, now: int)
    requires SlotsOk(c, s.pcs, s.slots)
    ensures SlotsOk(c, Step(c, s, a, now).pcs, Step(c, s, a, now).slots)
  {
    var s' := Step(c, s, a, now);
    SlotsMove(c, s, a, now);
    if s'.slots == s.slots && forall g: Gid :: g.Intake? ==> (g in s'.pcs <==> g in s.pcs) {
      SameGoroutines(c, s.pcs, s'.pcs, s.slots);
    } else if a.IntakeClaim? {
      GoroutineStarts(c, s, a.g, Claimed(a.id));
    } else {
      GoroutineReturns(c, s, a.g);
    }
  }

  // --- Locks ------------------------------------------------------------------------------

  /** A goroutine that keeps its job and keeps or releases no lock changes nothing about locks. */
  lemma SamePcLocks(c: Setup, s: Sys, g: Gid, pc: Pc)
    requires LocksOk(c, s.locks, s.pcs) && g in s.pcs && pc.job == s.pcs[g].job && Holds(pc) == Holds(s.pcs[g])
    ensures LocksOk(c, s.locks, s.pcs[g := pc])
  {
  }

  lemma TakenLock(c: Setup, s: Sys, g: Gid, pc: Pc)
    requires LocksOk(c, s.locks, s.pcs) && c.key(pc.job) !in s.locks && Holds(pc)
    requires g in s.pcs ==> !Holds(s.pcs[g])
    ensures LocksOk(c, s.locks[c.key(pc.job) := g], s.pcs[g := pc])
  {
  }

  lemma FreedLock(c: Setup, s: Sys, g: Gid)
    requires LocksOk(c, s.locks, s.pcs) && g in s.pcs
    ensures LocksOk(c, Unlocked(c, s, g).locks, Unlocked(c, s, g).pcs)
  {
  }

  lemma LocksKept(c: Setup, s: Sys, a: Act, now: int)
    requires LocksOk(c, s.locks, s.pcs)
    ensures LocksOk(c, Step(c, s, a, now).locks, Step(c, s, a, now).pcs)
  {
    match a
    case IntakeClaim(_, _) =>
    case IntakeLock(g) =>
      if g in s.pcs && s.pcs[g].Claimed? {
        var id := s.pcs[g].job;
        if c.key(id) in s.locks {
          SamePcLocks(c, s, g, Requeue(id));
        } else {
          TakenLock(c, s, g, Driving(id, Converting));
        }
      }
    case IntakeLockError(g) =>
      if g in s.pcs && s.pcs[g].Claimed? {
        FreedLock(c, s, g);
      }
    case IntakeRequeue(g) =>
      if g in s.pcs && s.pcs[g].Requeue? {
        FreedLock(c, s, g);
      }
    case Report(g, _) => DriveKeepsLocks(c, s, a, now);
    case Advance(g) => DriveKeepsLocks(c, s, a, now);
    case StageFails(g, _) => DriveKeepsLocks(c, s, a, now);
    case Shutdown(g) => DriveKeepsLocks(c, s, a, now);
    case ResumeLock(g, id) =>
      if g.Resume? && g !in s.pcs && c.key(id) !in s.locks {
        TakenLock(c, s, g, Locked(id));
      }
    case ResumeRead(g) =>
      if g in s.pcs && s.pcs[g].Locked? {
        SamePcLocks(c, s, g, LockStep(c, s, a).pcs[g]);
      }
    case Unlock(g) =>
      if g in s.pcs {
        FreedLock(c, s, g);
      }
    case Crash(g) =>
      if g in s.pcs {
        FreedLock(c, s, g);
      }
    case _ =>
  }

  lemma DriveKeepsLocks(c: Setup, s: Sys, a: Act, now: int)
    requires a.Report? || a.Advance? || a.StageFails? || a.Shutdown?
    requires LocksOk(c, s.locks, s.pcs)
    ensures LocksOk(c, DriveStep(c, s, a, now).locks, DriveStep(c, s, a, now).pcs)
  {
    if a.g in s.pcs && s.pcs[a.g].Driving? {
      SamePcLocks(c, s, a.g, DriveStep(c, s, a, now).pcs[a.g]);
    }
  }

  // --- The tables ---------------------------------------------------------------------------

  lemma SameRowsSameLog(db: Db, db': Db)
    requires Queue.LogOk(db)
    requires db'.jobs == db.jobs && db'.events == db.events && db'.nextEvent == db.nextEvent
    ensures Queue.LogOk(db')
  {
  }

  lemma {:induction false} PoliciesKeepLog(db: Db, max: int, jobs: seq<JobId>, now: int)
    requires Queue.LogOk(db)
    ensures Queue.LogOk(L.AfterPolicies(db, max, jobs, now))
  {
    if jobs != [] {
      PoliciesKeepLog(db, max, jobs[..|jobs| - 1], now);
      PolicyKeepsLog(L.AfterPolicies(db, max, jobs[..|jobs| - 1], now), max, jobs[|jobs| - 1], L.HEARTBEATS_STOPPED, now);
    }
  }

  lemma PolicyKeepsLog(db: Db, max: int, id: JobId, reason: string, now: int)
    requires Queue.LogOk(db)
    ensures Queue.LogOk(L.AfterFailure(db, max, id, reason, now))
  {
    var n := L.Failures(db.leases, id);
    Queue.TransitionKeepsLog(db, id, Failed, 0, GaveUp(n, L.Reason(reason)), now);
    Queue.TransitionKeepsLog(db, id, Separating, 28, Retrying(n, L.Reason(reason)), now);
  }

  lemma HeartbeatKeepsLog(db: Db, l: LeaseId, runner: RunnerId, fraction: real, transcribing: bool, ttl: int, now: int)
    requires Queue.LogOk(db)
    ensures Queue.LogOk(L.AfterHeartbeat(db, l, runner, fraction, transcribing, ttl, now))
  {
    if L.LeaseError(db, l, runner) == NoError {
      var id, db1 := db.leases[l].job, L.Extended(db, l, ttl, now);
      SameRowsSameLog(db, db1);
      SameRowsSameLog(db, L.Closed(db1, l, LeaseFailed, now));
      var p := StageProgress(Separating, fraction);
      StageProgressInBand(Separating, fraction);
      Queue.TransitionKeepsLog(db1, id, Separating, p, if transcribing then Transcribing else Caption(Separating, p), now);
    }
  }

  lemma CompleteKeepsLog(db: Db, l: LeaseId, e: Error, ttl: int, now: int)
    requires Queue.LogOk(db)
    ensures Queue.LogOk(L.AfterComplete(db, l, e, ttl, now))
  {
    if l in db.leases {
      SameRowsSameLog(db, L.Closed(db, l, LeaseFailed, now));
      SameRowsSameLog(db, L.Extended(db, l, ttl, now));
      var mid := L.Closed(db, l, LeaseCompleted, now);
      SameRowsSameLog(db, mid);
      Queue.TransitionKeepsLog(mid, db.leases[l].job, Finalizing, 76, Caption(Finalizing, 76), now);
    }
  }

  /** Every statement of the lease store and the sweepers keeps rows, logs and leases consistent. */
  lemma ClaimStepKeeps(c: Setup, db: Db, id: JobId, runner: RunnerId, caps: L.Capabilities, now: int)
    requires TablesOk(c, db) && First(id, L.OfferedJobs(db, c.max, caps), L.SeparationKey(db.jobs))
    ensures TablesOk(c, L.AfterClaim(db, id, runner, c.ttl, now)) && TablesOk(c, L.AfterInsert(db, id, runner, c.ttl, now))
  {
    LI.UnmovedClaimKeeps(db, c.max, caps, id, runner, c.ttl, now);
    LI.ClaimKeeps(db, c.max, caps, id, runner, c.ttl, now);
    ClaimKeepsLog(db, id, runner, c.ttl, now);
  }

  lemma ClaimKeepsLog(db: Db, id: JobId, runner: RunnerId, ttl: int, now: int)
    requires Queue.LogOk(db)
    ensures Queue.LogOk(L.AfterClaim(db, id, runner, ttl, now)) && Queue.LogOk(L.AfterInsert(db, id, runner, ttl, now))
  {
    var mid := L.AfterInsert(db, id, runner, ttl, now);
    SameRowsSameLog(db, mid);
    Queue.TransitionKeepsLog(mid, id, Separating, 28, Caption(Separating, 28), now);
  }

  lemma FailStepKeeps(c: Setup, db: Db, l: LeaseId, runner: RunnerId, reason: string, now: int)
    requires TablesOk(c, db)
    ensures TablesOk(c, L.AfterFail(db, c.max, l, runner, reason, now))
  {
    LI.FailKeeps(db, c.max, l, runner, reason, now);
    if L.LeaseError(db, l, runner) == NoError {
      var mid := L.Closed(db, l, LeaseFailed, now);
      SameRowsSameLog(db, mid);
      PolicyKeepsLog(mid, c.max, db.leases[l].job, reason, now);
    }
  }

  lemma SweepStepKeeps(c: Setup, db: Db, ls: seq<LeaseId>, now: int)
    requires TablesOk(c, db) && Distinct(ls) && Elements(ls) == L.StaleLeases(db, now) && forall l :: l in ls ==> l in db.leases
    ensures TablesOk(c, L.AfterExpireStale(db, c.max, ls, now))
  {
    LI.ExpireStaleKeeps(db, c.max, ls, now);
    SameRowsSameLog(db, L.AfterExpiry(db, now));
    PoliciesKeepLog(L.AfterExpiry(db, now), c.max, L.JobsOf(db, ls), now);
  }

  lemma TableStepKeeps(c: Setup, db: Db, a: Act, now: int)
    requires OnTables(a)
    requires TablesOk(c, db)
    ensures TablesOk(c, TableStep(c, db, a, now))
  {
    match a
    case GpuClaim(id, runner, caps, fault) =>
      if First(id, L.OfferedJobs(db, c.max, caps), L.SeparationKey(db.jobs)) {
        ClaimStepKeeps(c, db, id, runner, caps, now);
      }
    case Heartbeat(l, runner, fraction, transcribing) =>
      LI.HeartbeatKeeps(db, c.max, l, runner, fraction, transcribing, c.ttl, now);
      HeartbeatKeepsLog(db, l, runner, fraction, transcribing, c.ttl, now);
    case Complete(l, runner, outcome) =>
      if LI.CompleteOutcome(db, l, outcome) {
        LI.CompleteKeeps(db, c.max, l, outcome, c.ttl, now);
        CompleteKeepsLog(db, l, outcome, c.ttl, now);
      }
    case Fail(l, runner, reason) => FailStepKeeps(c, db, l, runner, reason, now);
    case ExpireStale(ls) =>
      if Distinct(ls) && Elements(ls) == L.StaleLeases(db, now) && (forall l :: l in ls ==> l in db.leases) {
        SweepStepKeeps(c, db, ls, now);
      }
    case CancelJob(id) => EndKeeps(db, c.max, id, Cancelled, CancelledByUser, now);
    case FailJob(id, message) => EndKeeps(db, c.max, id, Failed, message, now);
    case DeleteJobs(gone) =>
      LI.DeleteKeeps(db, c.max, gone);
      Queue.DeleteKeepsLog(db, gone);
  }

  lemma EndKeeps(db: Db, max: int, id: JobId, status: Status, message: Message, now: int)
    requires Queue.LogOk(db) && LI.LeasesOk(db, max) && (status == Failed || status == Cancelled)
    ensures var db' := Queue.AfterTransition(db, id, status, 0, message, now); Queue.LogOk(db') && LI.LeasesOk(db', max)
  {
    Queue.TransitionKeepsLog(db, id, status, 0, message, now);
    EndKeepsLeases(db, max, id, status, message, now);
  }

  lemma EndKeepsLeases(db: Db, max: int, id: JobId, status: Status, message: Message, now: int)
    requires LI.LeasesOk(db, max) && (status == Failed || status == Cancelled)
    ensures LI.LeasesOk(Queue.AfterTransition(db, id, status, 0, message, now), max)
  {
    assert id in db.jobs ==> LI.JobFits(db, max, id);
    LI.MoveKeeps(db, max, id, status, 0, message, now);
  }

  /** Before the hand-off and after it, the worker may move its job anywhere it does. */
  lemma WorkerMoveKeeps(db: Db, max: int, id: JobId, status: Status, progress: int, message: Message, now: int)
    requires Queue.LogOk(db) && LI.LeasesOk(db, max) && InBand(status, progress)
    requires id in db.jobs && !IsTerminal(db.jobs[id].status) ==>
               var s := db.jobs[id].status;
               || IsTerminal(status)
               || (Rank(s) < Rank(Separating) && Rank(status) <= Rank(Separating))
               || (Rank(s) > Rank(Separating) && Rank(status) > Rank(Separating))
    ensures var db' := Queue.AfterTransition(db, id, status, progress, message, now); Queue.LogOk(db') && LI.LeasesOk(db', max)
  {
    Queue.TransitionKeepsLog(db, id, status, progress, message, now);
    WorkerMoveKeepsLeases(db, max, id, status, progress, message, now);
  }

  lemma WorkerMoveKeepsLeases(db: Db, max: int, id: JobId, status: Status, progress: int, message: Message, now: int)
    requires LI.LeasesOk(db, max)
    requires id in db.jobs && !IsTerminal(db.jobs[id].status) ==>
               var s := db.jobs[id].status;
               || IsTerminal(status)
               || (Rank(s) < Rank(Separating) && Rank(status) <= Rank(Separating))
               || (Rank(s) > Rank(Separating) && Rank(status) > Rank(Separating))
    ensures LI.LeasesOk(Queue.AfterTransition(db, id, status, progress, message, now), max)
  {
    assert id in db.jobs ==> LI.JobFits(db, max, id);
    LI.MoveKeeps(db, max, id, status, progress, message, now);
  }

  // --- The status only moves forward ----------------------------------------------------------

  /** How one step may change the status of a job. */
  ghost predicate Forward(s: Status, t: Status)
  {
    || s == t
    || (!IsTerminal(s) && Rank(s) < Rank(t))
    || ((s == Converting || s == Analyzing) && t == Pending)
  }

  /** No step touches a job outside the rule: forward, or back to the queue before the hand-off. */
  ghost predicate AllForward(db: Db, db': Db)
  {
    forall id :: id in db.jobs && id in db'.jobs ==> Forward(db.jobs[id].status, db'.jobs[id].status)
  }

  /** Steps of others that a goroutine cannot notice: its job is untouched, ended or gone. */
  ghost predicate Unnoticed(db: Db, db': Db, id: JobId)
  {
    id in db'.jobs ==> IsTerminal(db'.jobs[id].status) || (id in db.jobs && db'.jobs[id].status == db.jobs[id].status)
  }

  lemma MoveForward(db: Db, id: JobId, status: Status, progress: int, message: Message, now: int)
    requires id in db.jobs ==> IsTerminal(db.jobs[id].status) || Forward(db.jobs[id].status, status)
    ensures AllForward(db, Queue.AfterTransition(db, id, status, progress, message, now))
    ensures forall k :: k != id ==> Unnoticed(db, Queue.AfterTransition(db, id, status, progress, message, now), k)
  {
  }

  lemma {:induction false} PoliciesMoveSeparatingJobs(db: Db, max: int, jobs: seq<JobId>, now: int)
    requires forall id :: id in jobs && id in db.jobs ==> db.jobs[id].status == Separating || IsTerminal(db.jobs[id].status)
    ensures var db' := L.AfterPolicies(db, max, jobs, now);
            && db'.jobs.Keys == db.jobs.Keys
            && forall id :: id in db.jobs ==>
                 || db'.jobs[id].status == db.jobs[id].status
                 || (db.jobs[id].status == Separating && db'.jobs[id].status == Failed)
  {
    if jobs != [] {
      PoliciesMoveSeparatingJobs(db, max, jobs[..|jobs| - 1], now);
      assert jobs[|jobs| - 1] in jobs;
    }
  }

  /** From db to db', jobs move forward, and only separating jobs unless they are ended or deleted. */
  ghost predicate OnlySeparatingMove(db: Db, db': Db)
  {
    && db'.jobs.Keys <= db.jobs.Keys
    && AllForward(db, db')
    && forall id :: id in db.jobs && db.jobs[id].status != Separating ==> Unnoticed(db, db', id)
  }

  lemma SeparatingMove(db: Db, mid: Db, id: JobId, status: Status, progress: int, message: Message, now: int)
    requires mid.jobs == db.jobs
    requires IsTerminal(status) || (id in db.jobs &&
             ((db.jobs[id].status == Separating && (status == Separating || status == Finalizing)) || IsTerminal(db.jobs[id].status)))
    ensures OnlySeparatingMove(db, Queue.AfterTransition(mid, id, status, progress, message, now))
  {
    MoveForward(mid, id, status, progress, message, now);
  }

  lemma FailForward(c: Setup, db: Db, l: LeaseId, runner: RunnerId, reason: string, now: int)
    requires LI.LeasesOk(db, c.max)
    ensures OnlySeparatingMove(db, L.AfterFail(db, c.max, l, runner, reason, now))
  {
    if L.LeaseError(db, l, runner) == NoError {
      LI.ActiveLease(db, c.max, l);
      var id, mid := db.leases[l].job, L.Closed(db, l, LeaseFailed, now);
      var n := L.Failures(mid.leases, id);
      SeparatingMove(db, mid, id, Failed, 0, GaveUp(n, L.Reason(reason)), now);
      SeparatingMove(db, mid, id, Separating, 28, Retrying(n, L.Reason(reason)), now);
    }
  }

  lemma HeartbeatForward(db: Db, l: LeaseId, runner: RunnerId, fraction: real, transcribing: bool, ttl: int, now: int)
    ensures OnlySeparatingMove(db, L.AfterHeartbeat(db, l, runner, fraction, transcribing, ttl, now))
  {
    if L.HeartbeatError(db, l, runner) == NoError {
      var p := StageProgress(Separating, fraction);
      SeparatingMove(db, L.Extended(db, l, ttl, now), db.leases[l].job, Separating, p,
                     if transcribing then Transcribing else Caption(Separating, p), now);
    }
  }

  lemma CompleteForward(db: Db, l: LeaseId, e: Error, ttl: int, now: int)
    requires LI.CompleteOutcome(db, l, e)
    ensures OnlySeparatingMove(db, L.AfterComplete(db, l, e, ttl, now))
  {
    if e == NoError {
      SeparatingMove(db, L.Closed(db, l, LeaseCompleted, now), db.leases[l].job, Finalizing, 76, Caption(Finalizing, 76), now);
    }
  }

  lemma ExpireStaleForward(c: Setup, db: Db, ls: seq<LeaseId>, now: int)
    requires LI.LeasesOk(db, c.max) && Distinct(ls) && Elements(ls) == L.StaleLeases(db, now)
    requires forall l :: l in ls ==> l in db.leases
    ensures OnlySeparatingMove(db, L.AfterExpireStale(db, c.max, ls, now))
  {
    StaleJobsAreSeparating(c, db, ls, now);
    SweepForward(db, L.AfterExpiry(db, now), c.max, L.JobsOf(db, ls), now);
  }

  lemma SweepForward(db: Db, mid: Db, max: int, jobs: seq<JobId>, now: int)
    requires mid.jobs == db.jobs
    requires forall id :: id in jobs ==> id in db.jobs && (db.jobs[id].status == Separating || IsTerminal(db.jobs[id].status))
    ensures OnlySeparatingMove(db, L.AfterPolicies(mid, max, jobs, now))
  {
    PoliciesMoveSeparatingJobs(mid, max, jobs, now);
    var db' := L.AfterPolicies(mid, max, jobs, now);
    assert db'.jobs.Keys == mid.jobs.Keys;
  }

  lemma StaleJobsAreSeparating(c: Setup, db: Db, ls: seq<LeaseId>, now: int)
    requires LI.LeasesOk(db, c.max) && Elements(ls) == L.StaleLeases(db, now)
    requires forall l :: l in ls ==> l in db.leases
    ensures forall id :: id in L.JobsOf(db, ls) ==>
              id in db.jobs && (db.jobs[id].status == Separating || IsTerminal(db.jobs[id].status))
  {
    forall id | id in L.JobsOf(db, ls)
      ensures id in db.jobs && (db.jobs[id].status == Separating || IsTerminal(db.jobs[id].status))
    {
      var i :| 0 <= i < |ls| && db.leases[ls[i]].job == id;
      assert ls[i] in Elements(ls);
      LI.ActiveLease(db, c.max, ls[i]);
    }
  }

  lemma TableStepForward(c: Setup, db: Db, a: Act, now: int)
    requires OnTables(a)
    requires LI.LeasesOk(db, c.max)
    ensures OnlySeparatingMove(db, TableStep(c, db, a, now))
  {
    match a
    case GpuClaim(id, runner, caps, fault) =>
      if First(id, L.OfferedJobs(db, c.max, caps), L.SeparationKey(db.jobs)) {
        SeparatingMove(db, L.AfterInsert(db, id, runner, c.ttl, now), id, Separating, 28, Caption(Separating, 28), now);
      }
    case Heartbeat(l, runner, fraction, transcribing) =>
      HeartbeatForward(db, l, runner, fraction, transcribing, c.ttl, now);
    case Complete(l, runner, outcome) =>
      if LI.CompleteOutcome(db, l, outcome) {
        CompleteForward(db, l, outcome, c.ttl, now);
      }
    case Fail(l, runner, reason) => FailForward(c, db, l, runner, reason, now);
    case ExpireStale(ls) =>
      if Distinct(ls) && Elements(ls) == L.StaleLeases(db, now) && (forall l :: l in ls ==> l in db.leases) {
        ExpireStaleForward(c, db, ls, now);
      }
    case CancelJob(id) => SeparatingMove(db, db, id, Cancelled, 0, CancelledByUser, now);
    case FailJob(id, message) => SeparatingMove(db, db, id, Failed, 0, message, now);
    case DeleteJobs(gone) =>
  }

  // --- The workers ------------------------------------------------------------------------------

  /** A step on the tables that no working goroutine can notice keeps them all right. */
  lemma UnnoticedKeeps(s: Sys, db': Db)
    requires WorkersOk(s) && OnlySeparatingMove(s.db, db')
    ensures WorkersOk(s.(db := db'))
  {
    forall g | g in s.pcs
      ensures PcOk(db', s.seen, s.pcs[g])
    {
      assert PcOk(s.db, s.seen, s.pcs[g]);
    }
  }

  /** A goroutine moves its own job and its own state together; no other works on that job. */
  lemma OwnMoveKeeps(s: Sys, g: Gid, db': Db, pc: Pc)
    requires WorkersOk(s) && g in s.pcs && Works(s.pcs[g]) && pc.job == s.pcs[g].job
    requires db'.jobs.Keys == s.db.jobs.Keys
    requires forall id :: id != pc.job ==> Unnoticed(s.db, db', id)
    requires PcOk(db', s.seen, pc)
    ensures WorkersOk(At(s.(db := db'), g, pc))
  {
    var s' := At(s.(db := db'), g, pc);
    forall h | h in s'.pcs
      ensures PcOk(db', s.seen, s'.pcs[h])
    {
      if h != g && Works(s.pcs[h]) {
        assert PcOk(s.db, s.seen, s.pcs[h]);
        assert s.pcs[h].job != pc.job;
        assert Unnoticed(s.db, db', s.pcs[h].job);
      }
    }
  }

  /** Nobody can be working on a job that is pending. */
  lemma ClaimKeepsWorkers(s: Sys, g: Gid, id: JobId, now: int)
    requires WorkersOk(s) && g !in s.pcs && id in Queue.PendingJobs(s.db)
    ensures WorkersOk(At(s.(db := Queue.AfterClaim(s.db, id, now)), g, Claimed(id)))
    ensures AllForward(s.db, Queue.AfterClaim(s.db, id, now))
  {
    var s' := At(s.(db := Queue.AfterClaim(s.db, id, now)), g, Claimed(id));
    forall h | h in s.pcs
      ensures PcOk(s'.db, s.seen, s.pcs[h]) && (Works(s.pcs[h]) ==> s.pcs[h].job != id)
    {
      assert PcOk(s.db, s.seen, s.pcs[h]);
    }
  }

  lemma RequeueKeepsWorkers(s: Sys, g: Gid, now: int)
    requires WorkersOk(s) && g in s.pcs && s.pcs[g].Requeue?
    ensures var db' := Queue.AfterTransition(s.db, s.pcs[g].job, Pending, 0, Caption(Pending, 0), now);
            WorkersOk(Gone(s.(db := db'), g)) && AllForward(s.db, db')
  {
    var id := s.pcs[g].job;
    var db' := Queue.AfterTransition(s.db, id, Pending, 0, Caption(Pending, 0), now);
    assert PcOk(s.db, s.seen, s.pcs[g]);
    MoveForward(s.db, id, Pending, 0, Caption(Pending, 0), now);
    OwnMoveKeeps(s, g, db', Releasing(id));
    var s' := At(s.(db := db'), g, Releasing(id));
    assert forall h :: h in Gone(s.(db := db'), g).pcs ==> s'.pcs[h] == s.pcs[h];
  }

  lemma IntakeKeepsWorkers(c: Setup, s: Sys, a: Act, now: int)
    requires a.IntakeClaim? || a.IntakeLock? || a.IntakeLockError? || a.IntakeRequeue?
    requires WorkersOk(s)
    ensures WorkersOk(IntakeStep(c, s, a, now)) && AllForward(s.db, IntakeStep(c, s, a, now).db)
  {
    match a
    case IntakeClaim(g, id) =>
      if g.Intake? && Taken(s.slots, g.proc) < c.slots && g !in s.pcs && First(id, Queue.PendingJobs(s.db), Queue.QueueKey(s.db.jobs)) {
        ClaimKeepsWorkers(s, g, id, now);
      }
    case IntakeLock(g) =>
    case IntakeLockError(g) =>
    case IntakeRequeue(g) =>
      if g in s.pcs && s.pcs[g].Requeue? {
        RequeueKeepsWorkers(s, g, now);
      }
  }

  /** Where a goroutine driving a stage may move its job. */
  predicate MayMove(stage: Status, status: Status)
  {
    || IsTerminal(status) || status == stage
    || (Rank(stage) < Rank(Separating) && (status == Pending || Rank(stage) < Rank(status) <= Rank(Separating)))
    || (Rank(stage) > Rank(Separating) && Rank(status) > Rank(stage))
  }

  /** Where a worker may take its job next. */
  ghost predicate NextPc(s: Sys, g: Gid, status: Status, next: Pc)
    requires g in s.pcs && s.pcs[g].Driving?
  {
    || next == Releasing(s.pcs[g].job)
    || (next == Driving(s.pcs[g].job, status) &&
        (status == Converting || status == Analyzing || status == Finalizing || status == Packaging))
  }

  lemma DrivenMayMove(db: Db, seen: set<JobId>, pc: Pc, status: Status)
    requires pc.Driving? && PcOk(db, seen, pc) && MayMove(pc.stage, status)
    ensures pc.job in db.jobs ==> IsTerminal(db.jobs[pc.job].status) || Forward(db.jobs[pc.job].status, status)
  {
    if pc.job in db.jobs && !IsTerminal(db.jobs[pc.job].status) {
      MayMoveIsForward(pc.stage, status);
    }
  }

  lemma MayMoveIsForward(stage: Status, status: Status)
    requires MayMove(stage, status) && (stage == Converting || stage == Analyzing || stage == Finalizing || stage == Packaging)
    ensures Forward(stage, status)
  {
  }

  lemma MovesKeepPc(s: Sys, g: Gid, status: Status, progress: int, message: Message, next: Pc, now: int)
    requires g in s.pcs && s.pcs[g].Driving? && PcOk(s.db, s.seen, s.pcs[g]) && NextPc(s, g, status, next)
    ensures var id := s.pcs[g].job;
            var db' := Queue.AfterTransition(s.db, id, status, progress, message, now);
            PcOk(db', s.seen, if Queue.TransitionError(s.db, id) == NoError then next else Releasing(id)) &&
            db'.jobs.Keys == s.db.jobs.Keys
  {
  }

  lemma MovesKeepWorkers(s: Sys, g: Gid, status: Status, progress: int, message: Message, next: Pc, now: int)
    requires WorkersOk(s) && g in s.pcs && s.pcs[g].Driving?
    requires MayMove(s.pcs[g].stage, status) && NextPc(s, g, status, next)
    ensures var s' := Moves(s, g, status, progress, message, next, now); WorkersOk(s') && AllForward(s.db, s'.db)
  {
    var id := s.pcs[g].job;
    assert PcOk(s.db, s.seen, s.pcs[g]);
    DrivenMayMove(s.db, s.seen, s.pcs[g], status);
    MoveForward(s.db, id, status, progress, message, now);
    MovesKeepPc(s, g, status, progress, message, next, now);
    OwnMoveKeeps(s, g, Queue.AfterTransition(s.db, id, status, progress, message, now),
                 if Queue.TransitionError(s.db, id) == NoError then next else Releasing(id));
  }

  lemma DriveKeepsWorkers(c: Setup, s: Sys, a: Act, now: int)
    requires a.Report? || a.Advance? || a.StageFails? || a.Shutdown?
    requires WorkersOk(s)
    ensures WorkersOk(DriveStep(c, s, a, now)) && AllForward(s.db, DriveStep(c, s, a, now).db)
  {
    if a.g in s.pcs && s.pcs[a.g].Driving? {
      var id, stage := s.pcs[a.g].job, s.pcs[a.g].stage;
      assert PcOk(s.db, s.seen, s.pcs[a.g]);
      match a {
        case Report(g, fraction) =>
          MovesKeepWorkers(s, g, stage, StageProgress(stage, fraction), Caption(stage, StageProgress(stage, fraction)), s.pcs[g], now);
        case Advance(g) =>
          var next := NextStage(stage);
          MovesKeepWorkers(s, g, next, StageStart(next), Caption(next, StageStart(next)),
                           if next == Separating || next == Completed then Releasing(id) else Driving(id, next), now);
        case StageFails(g, text) =>
          MovesKeepWorkers(s, g, Failed, 0, StageError(text), Releasing(id), now);
        case Shutdown(g) =>
          if id in s.db.jobs && (s.db.jobs[id].status == Converting || s.db.jobs[id].status == Analyzing) {
            MovesKeepWorkers(s, g, Pending, 0, Caption(Pending, 0), Releasing(id), now);
          } else {
            OwnMoveKeeps(s, g, s.db, Releasing(id));
          }
      }
    }
  }

  /** The resume loop starts driving only under the lock and past the hand-off: nobody else is at it. */
  lemma ResumeReadKeepsWorkers(c: Setup, s: Sys, g: Gid)
    requires LocksOk(c, s.locks, s.pcs) && WorkersOk(s) && g in s.pcs && s.pcs[g].Locked?
    ensures WorkersOk(LockStep(c, s, ResumeRead(g)))
  {
    var id, s' := s.pcs[g].job, LockStep(c, s, ResumeRead(g));
    forall h | h in s.pcs && h != g && Works(s'.pcs[g]) && Works(s.pcs[h])
      ensures s.pcs[h].job != id
    {
      assert PcOk(s.db, s.seen, s.pcs[h]);
      assert Holds(s.pcs[g]);
    }
  }

  lemma LockStepKeepsWorkers(c: Setup, s: Sys, a: Act)
    requires a.ResumeLock? || a.ResumeRead? || a.Unlock? || a.Crash?
    requires LocksOk(c, s.locks, s.pcs) && WorkersOk(s)
    ensures WorkersOk(LockStep(c, s, a))
  {
    if a.ResumeRead? && a.g in s.pcs && s.pcs[a.g].Locked? {
      ResumeReadKeepsWorkers(c, s, a.g);
    }
  }

  lemma CreateKeepsWorkers(s: Sys, id: JobId, j: Job, now: int)
    requires WorkersOk(s) && id !in s.seen
    ensures WorkersOk(s.(db := Queue.AfterCreate(s.db, id, j, now), seen := s.seen + {id}))
    ensures AllForward(s.db, Queue.AfterCreate(s.db, id, j, now))
  {
    var s' := s.(db := Queue.AfterCreate(s.db, id, j, now), seen := s.seen + {id});
    forall g | g in s.pcs
      ensures PcOk(s'.db, s'.seen, s.pcs[g])
    {
      assert PcOk(s.db, s.seen, s.pcs[g]);
    }
  }

  lemma TableStepKeepsWorkers(c: Setup, s: Sys, a: Act, now: int)
    requires OnTables(a)
    requires LI.LeasesOk(s.db, c.max) && WorkersOk(s)
    ensures WorkersOk(s.(db := TableStep(c, s.db, a, now))) && AllForward(s.db, TableStep(c, s.db, a, now))
  {
    TableStepForward(c, s.db, a, now);
    UnnoticedKeeps(s, TableStep(c, s.db, a, now));
  }

  lemma WorkerStepKeepsWorkers(c: Setup, s: Sys, a: Act, now: int)
    requires !a.CreateJob? && !OnTables(a)
    requires LocksOk(c, s.locks, s.pcs) && WorkersOk(s)
    ensures WorkersOk(Step(c, s, a, now)) && AllForward(s.db, Step(c, s, a, now).db)
  {
    match a
    case IntakeClaim(_, _) => IntakeKeepsWorkers(c, s, a, now);
    case IntakeLock(_) => IntakeKeepsWorkers(c, s, a, now);
    case IntakeLockError(_) => IntakeKeepsWorkers(c, s, a, now);
    case IntakeRequeue(_) => IntakeKeepsWorkers(c, s, a, now);
    case Report(_, _) => DriveKeepsWorkers(c, s, a, now);
    case Advance(_) => DriveKeepsWorkers(c, s, a, now);
    case StageFails(_, _) => DriveKeepsWorkers(c, s, a, now);
    case Shutdown(_) => DriveKeepsWorkers(c, s, a, now);
    case ResumeLock(_, _) => LockStepKeepsWorkers(c, s, a);
    case ResumeRead(_) => LockStepKeepsWorkers(c, s, a);
    case Unlock(_) => LockStepKeepsWorkers(c, s, a);
    case Crash(_) => LockStepKeepsWorkers(c, s, a);
  }

  lemma StepKeepsWorkers(c: Setup, s: Sys, a: Act, now: int)
    requires LI.LeasesOk(s.db, c.max) && LocksOk(c, s.locks, s.pcs) && WorkersOk(s)
    ensures WorkersOk(Step(c, s, a, now)) && AllForward(s.db, Step(c, s, a, now).db)
  {
    if OnTables(a) {
      TableStepKeepsWorkers(c, s, a, now);
    } else if a.CreateJob? {
      if a.id !in s.seen {
        CreateKeepsWorkers(s, a.id, Queue.NewJob(a.quality, a.stack, a.model, a.transcribe, a.expiresAt, now), now);
      }
    } else {
      WorkerStepKeepsWorkers(c, s, a, now);
    }
  }

  // --- The tables under the workers' steps ----------------------------------------------------

  lemma MovesKeepTables(c: Setup, db: Db, stage: Status, id: JobId, status: Status, progress: int, message: Message, now: int)
    requires TablesOk(c, db) && InBand(status, progress) && MayMove(stage, status)
    requires stage in {Converting, Analyzing, Finalizing, Packaging}
    requires id in db.jobs ==> IsTerminal(db.jobs[id].status) || db.jobs[id].status == stage
    ensures TablesOk(c, Queue.AfterTransition(db, id, status, progress, message, now))
  {
    WorkerMoveKeeps(db, c.max, id, status, progress, message, now);
  }

  lemma DriveKeepsTables(c: Setup, s: Sys, a: Act, now: int)
    requires a.Report? || a.Advance? || a.StageFails? || a.Shutdown?
    requires TablesOk(c, s.db) && (a.g in s.pcs ==> PcOk(s.db, s.seen, s.pcs[a.g]))
    ensures TablesOk(c, DriveStep(c, s, a, now).db)
  {
    if a.g in s.pcs && s.pcs[a.g].Driving? {
      var id, stage := s.pcs[a.g].job, s.pcs[a.g].stage;
      match a {
        case Report(_, fraction) =>
          StageProgressInBand(stage, fraction);
          MovesKeepTables(c, s.db, stage, id, stage, StageProgress(stage, fraction), Caption(stage, StageProgress(stage, fraction)), now);
        case Advance(_) =>
          var next := NextStage(stage);
          MovesKeepTables(c, s.db, stage, id, next, StageStart(next), Caption(next, StageStart(next)), now);
        case StageFails(_, text) =>
          MovesKeepTables(c, s.db, stage, id, Failed, 0, StageError(text), now);
        case Shutdown(_) =>
          if id in s.db.jobs && (s.db.jobs[id].status == Converting || s.db.jobs[id].status == Analyzing) {
            MovesKeepTables(c, s.db, stage, id, Pending, 0, Caption(Pending, 0), now);
          }
      }
    }
  }

  lemma IntakeKeepsTables(c: Setup, s: Sys, a: Act, now: int)
    requires a.IntakeClaim? || a.IntakeLock? || a.IntakeLockError? || a.IntakeRequeue?
    requires TablesOk(c, s.db) && (a.g in s.pcs ==> PcOk(s.db, s.seen, s.pcs[a.g]))
    ensures TablesOk(c, IntakeStep(c, s, a, now).db)
  {
    match a
    case IntakeClaim(g, id) =>
      if g.Intake? && Taken(s.slots, g.proc) < c.slots && g !in s.pcs && First(id, Queue.PendingJobs(s.db), Queue.QueueKey(s.db.jobs)) {
        Queue.ClaimKeepsLog(s.db, id, now);
        LI.IntakeKeeps(s.db, c.max, id, now);
      }
    case IntakeLock(g) =>
    case IntakeLockError(g) =>
    case IntakeRequeue(g) =>
      if g in s.pcs && s.pcs[g].Requeue? {
        MovesKeepTables(c, s.db, Converting, s.pcs[g].job, Pending, 0, Caption(Pending, 0), now);
      }
  }

  lemma CreateKeepsTables(c: Setup, db: Db, id: JobId, j: Job, now: int)
    requires TablesOk(c, db) && id !in db.jobs
    requires j.status == Pending && j.progress == 0 && j.error.None? && j.completedAt.None?
    ensures TablesOk(c, Queue.AfterCreate(db, id, j, now))
  {
    Queue.CreateKeepsLog(db, id, j, now);
    LI.CreateKeeps(db, c.max, id, j, now);
  }

  lemma WorkerStepKeepsTables(c: Setup, s: Sys, a: Act, now: int)
    requires !a.CreateJob? && !OnTables(a) && TablesOk(c, s.db) && WorkersOk(s)
    ensures TablesOk(c, Step(c, s, a, now).db)
  {
    match a
    case IntakeClaim(_, _) => IntakeKeepsTables(c, s, a, now);
    case IntakeLock(_) => IntakeKeepsTables(c, s, a, now);
    case IntakeLockError(_) => IntakeKeepsTables(c, s, a, now);
    case IntakeRequeue(_) => IntakeKeepsTables(c, s, a, now);
    case Report(_, _) => DriveKeepsTables(c, s, a, now);
    case Advance(_) => DriveKeepsTables(c, s, a, now);
    case StageFails(_, _) => DriveKeepsTables(c, s, a, now);
    case Shutdown(_) => DriveKeepsTables(c, s, a, now);
    case _ =>
  }

  lemma StepKeepsTables(c: Setup, s: Sys, a: Act, now: int)
    requires TablesOk(c, s.db) && WorkersOk(s)
    ensures TablesOk(c, Step(c, s, a, now).db)
  {
    if OnTables(a) {
      TableStepKeeps(c, s.db, a, now);
    } else if a.CreateJob? {
      if a.id !in s.seen {
        CreateKeepsTables(c, s.db, a.id, Queue.NewJob(a.quality, a.stack, a.model, a.transcribe, a.expiresAt, now), now);
      }
    } else {
      WorkerStepKeepsTables(c, s, a, now);
    }
  }

  // --- Every run -----------------------------------------------------------------------------------

  /** The invariant is inductive, and every step moves every job forward or back to the queue. */
  lemma StepKeeps(c: Setup, s: Sys, a: Act, now: int)
    requires Inv(c, s)
    ensures Inv(c, Step(c, s, a, now))
    ensures AllForward(s.db, Step(c, s, a, now).db)
  {
    LocksKept(c, s, a, now);
    SlotsKept(c, s, a, now);
    StepKeepsTables(c, s, a, now);
    StepKeepsWorkers(c, s, a, now);
  }

  /** Every state any interleaving reaches satisfies the invariant. */
  lemma {:induction false} EveryRunKeeps(c: Setup, acts: seq<(Act, int)>)
    requires c.max >= 1
    ensures Inv(c, Run(c, acts))
  {
    if acts != [] {
      EveryRunKeeps(c, acts[..|acts| - 1]);
      StepKeeps(c, Run(c, acts[..|acts| - 1]), acts[|acts| - 1].0, acts[|acts| - 1].1);
    }
  }

  // --- What every reachable state promises -------------------------------------------------------

  /** Attempts are bounded, an active lease is unique and belongs to a job being separated or
      already finished, and a completed lease leaves no active one. */
  lemma LeaseAccounting(c: Setup, acts: seq<(Act, int)>, id: JobId)
    requires c.max >= 1 && id in Run(c, acts).db.jobs
    ensures var db := Run(c, acts).db; var s := db.jobs[id].status; var leases := db.leases;
            && |L.ActiveOf(leases, id)| <= 1
            && |L.ActiveOf(leases, id)| + L.Failures(leases, id) <= c.max
            && (L.ActiveOf(leases, id) != {} ==> s == Separating || IsTerminal(s))
            && (L.CompletedOf(leases, id) != {} ==> L.ActiveOf(leases, id) == {} && Rank(s) > Rank(Separating))
  {
    EveryRunKeeps(c, acts);
    assert LI.JobFits(Run(c, acts).db, c.max, id);
  }

  /** A job waiting for a runner is never stranded: the next capable runner may be offered it. */
  lemma NeverStranded(c: Setup, acts: seq<(Act, int)>, id: JobId, caps: L.Capabilities)
    requires c.max >= 1
    requires var db := Run(c, acts).db;
             id in db.jobs && db.jobs[id].status == Separating && L.ActiveOf(db.leases, id) == {}
    ensures var db := Run(c, acts).db;
            id in L.OfferedJobs(db, c.max, caps) <==>
            (db.jobs[id].transcribe ==> caps.transcribe) && L.JobModelSql(db.jobs[id]) in caps.recipes &&
            (db.jobs[id].stack == "public" || caps.stack == "internal")
  {
    EveryRunKeeps(c, acts);
    assert LI.JobFits(Run(c, acts).db, c.max, id);
  }

  /** The job row is the last entry of its event log, and at most that entry is terminal. */
  lemma RowIsLastEvent(c: Setup, acts: seq<(Act, int)>, id: JobId)
    requires c.max >= 1 && id in Run(c, acts).db.jobs
    ensures id in Run(c, acts).db.events
    ensures var j, log := Run(c, acts).db.jobs[id], Run(c, acts).db.events[id];
            && log != [] && log[|log| - 1].status == j.status && log[|log| - 1].progress == j.progress
            && (forall i :: 0 <= i < |log| && IsTerminal(log[i].status) ==> i == |log| - 1)
            && (forall i, k :: 0 <= i < k < |log| ==> log[i].id < log[k].id)
            && (j.completedAt.Some? <==> IsTerminal(j.status))
            && (j.error.Some? <==> j.status == Failed)
            && InBand(j.status, j.progress)
  {
    EveryRunKeeps(c, acts);
  }

  /** At most one goroutine of any process has a say in a job, and whoever drives it holds its lock. */
  lemma ExclusiveDriving(c: Setup, acts: seq<(Act, int)>, g: Gid, h: Gid)
    requires c.max >= 1
    requires var pcs := Run(c, acts).pcs;
             g in pcs && h in pcs && Works(pcs[g]) && Works(pcs[h]) && pcs[g].job == pcs[h].job
    ensures g == h
    ensures var s := Run(c, acts);
            s.pcs[g].Driving? ==>
              c.key(s.pcs[g].job) in s.locks && s.locks[c.key(s.pcs[g].job)] == g &&
              (s.pcs[g].job in s.db.jobs ==>
                 s.db.jobs[s.pcs[g].job].status == s.pcs[g].stage || IsTerminal(s.db.jobs[s.pcs[g].job].status))
  {
    EveryRunKeeps(c, acts);
    assert PcOk(Run(c, acts).db, Run(c, acts).seen, Run(c, acts).pcs[g]);
  }

  /** A claimed job whose lock is taken goes back to the queue, never driven by its claimer. */
  lemma LockedElsewhereGoesBack(c: Setup, acts: seq<(Act, int)>, g: Gid, now: int, then_: int)
    requires c.max >= 1
    requires var s := Run(c, acts); g in s.pcs && s.pcs[g].Claimed? && c.key(s.pcs[g].job) in s.locks
    ensures var s := Run(c, acts); var id := s.pcs[g].job;
            var s1 := Step(c, s, IntakeLock(g), now);
            var s2 := Step(c, s1, IntakeRequeue(g), then_);
            && s1.pcs[g] == Requeue(id) && g !in s2.pcs && s2.locks == s.locks
            && (id in s.db.jobs ==>
                  s2.db.jobs[id].status == if IsTerminal(s.db.jobs[id].status) then s.db.jobs[id].status else Pending)
  {
    EveryRunKeeps(c, acts);
    assert PcOk(Run(c, acts).db, Run(c, acts).seen, Run(c, acts).pcs[g]);
  }

  // --- Lock connections ---------------------------------------------------------------------------------

  const LOCK_HEADROOM := 4

  /** A truncating conversion to a signed 32-bit integer. */
  function Int32(x: int): int { (x + 0x8000_0000) % 0x1_0000_0000 - 0x8000_0000 }

  function PoolConns(slots: int): int
  {
    Int32(Int32(Int32(if slots < 1 then 1 else slots) + 1) + LOCK_HEADROOM)
  }

  /** The goroutines of a process that hold a lock, each on a connection of its own. */
  function LockConns(pcs: map<Gid, Pc>, proc: nat): set<Gid>
  {
    set g | g in pcs && g.proc == proc && Holds(pcs[g])
  }

  /** The slots channel bounds the goroutines of the intake loop, the resume loop is one more: a
      process never holds more than slots + 1 lock connections at once. */
  lemma LockConnsBound(c: Setup, acts: seq<(Act, int)>, proc: nat)
    requires c.max >= 1
    ensures |LockConns(Run(c, acts).pcs, proc)| <= c.slots + 1
  {
    EveryRunKeeps(c, acts);
    var s := Run(c, acts);
    assert |IntakesOf(s.pcs, proc)| == Taken(s.slots, proc) <= c.slots;
    SubsetCard(LockConns(s.pcs, proc), IntakesOf(s.pcs, proc) + {Resume(proc)});
  }

  /** A pool of PoolConns always keeps the headroom free, exactly as long as the count fits 32 bits. */
  lemma PoolKeepsHeadroom(c: Setup, acts: seq<(Act, int)>, proc: nat)
    requires c.max >= 1 && 1 <= c.slots < 0x8000_0000
    ensures PoolConns(c.slots) == c.slots + 1 + LOCK_HEADROOM <==> c.slots <= 0x7fff_ffff - 5
    ensures c.slots <= 0x7fff_ffff - 5 ==> PoolConns(c.slots) - |LockConns(Run(c, acts).pcs, proc)| >= LOCK_HEADROOM
  {
    LockConnsBound(c, acts, proc);
  }

  // --- Closed leases ---------------------------------------------------------------------------------------

  /** Closed leases never change, and only go with their job. */
  ghost predicate ClosedStay(db: Db, db': Db)
  {
    forall l :: l in db.leases && db.leases[l].state != LeaseActive ==>
      (l in db'.leases || db.leases[l].job !in db'.jobs) && (l in db'.leases ==> db'.leases[l] == db.leases[l])
  }

  lemma {:induction false} PoliciesKeepLeases(db: Db, max: int, jobs: seq<JobId>, now: int)
    ensures L.AfterPolicies(db, max, jobs, now).leases == db.leases
  {
    if jobs != [] {
      PoliciesKeepLeases(db, max, jobs[..|jobs| - 1], now);
    }
  }

  /** Writing over an active lease, or a new one, leaves the closed ones alone. */
  lemma WriteSparesClosed(db: Db, db': Db, l: LeaseId, lease: Lease)
    requires l in db.leases ==> db.leases[l].state == LeaseActive
    requires db'.leases == db.leases || db'.leases == db.leases[l := lease]
    ensures ClosedStay(db, db')
  {
  }

  lemma SweepSparesClosed(c: Setup, db: Db, ls: seq<LeaseId>, now: int)
    requires forall l :: l in ls ==> l in db.leases
    ensures ClosedStay(db, L.AfterExpireStale(db, c.max, ls, now))
  {
    PoliciesKeepLeases(L.AfterExpiry(db, now), c.max, L.JobsOf(db, ls), now);
  }

  lemma HeartbeatSparesClosed(db: Db, l: LeaseId, runner: RunnerId, fraction: real, transcribing: bool, ttl: int, now: int)
    ensures ClosedStay(db, L.AfterHeartbeat(db, l, runner, fraction, transcribing, ttl, now))
  {
    if L.LeaseError(db, l, runner) == NoError {
      var db1 := L.Extended(db, l, ttl, now);
      var db2 := L.Closed(db1, l, LeaseFailed, now);
      assert db2.leases == db.leases[l := db2.leases[l]];
      WriteSparesClosed(db, db2, l, db2.leases[l]);
      var db' := L.AfterHeartbeat(db, l, runner, fraction, transcribing, ttl, now);
      assert db' == db2 || db'.leases == db1.leases;
      if db' != db2 {
        WriteSparesClosed(db, db', l, db1.leases[l]);
      }
    }
  }

  lemma FailSparesClosed(c: Setup, db: Db, l: LeaseId, runner: RunnerId, reason: string, now: int)
    ensures ClosedStay(db, L.AfterFail(db, c.max, l, runner, reason, now))
  {
    if L.LeaseError(db, l, runner) == NoError {
      var db1 := L.Closed(db, l, LeaseFailed, now);
      assert L.AfterFail(db, c.max, l, runner, reason, now).leases == db1.leases;
      WriteSparesClosed(db, L.AfterFail(db, c.max, l, runner, reason, now), l, db1.leases[l]);
    }
  }

  lemma CompleteSparesClosed(db: Db, l: LeaseId, e: Error, ttl: int, now: int)
    requires LI.CompleteOutcome(db, l, e)
    ensures ClosedStay(db, L.AfterComplete(db, l, e, ttl, now))
  {
    if e in {JobGone, Fault, NoError} {
      var db' := L.AfterComplete(db, l, e, ttl, now);
      assert db'.leases == db.leases[l := db'.leases[l]];
      WriteSparesClosed(db, db', l, db'.leases[l]);
    }
  }

  lemma ClaimSparesClosed(db: Db, id: JobId, runner: RunnerId, ttl: int, now: int)
    requires LI.LeasesBelong(db)
    ensures ClosedStay(db, L.AfterClaim(db, id, runner, ttl, now)) && ClosedStay(db, L.AfterInsert(db, id, runner, ttl, now))
  {
    assert db.nextLease !in db.leases;
    var db' := L.AfterClaim(db, id, runner, ttl, now);
    var lease := Lease(id, runner, now, now, now + ttl, LeaseActive);
    WriteSparesClosed(db, db', db.nextLease, lease);
    WriteSparesClosed(db, L.AfterInsert(db, id, runner, ttl, now), db.nextLease, lease);
  }

  lemma TableStepSparesClosed(c: Setup, db: Db, a: Act, now: int)
    requires OnTables(a)
    requires LI.LeasesBelong(db)
    ensures ClosedStay(db, TableStep(c, db, a, now))
  {
    match a
    case GpuClaim(id, runner, caps, fault) => ClaimSparesClosed(db, id, runner, c.ttl, now);
    case Heartbeat(l, runner, fraction, transcribing) =>
      HeartbeatSparesClosed(db, l, runner, fraction, transcribing, c.ttl, now);
    case Complete(l, runner, outcome) =>
      if LI.CompleteOutcome(db, l, outcome) {
        CompleteSparesClosed(db, l, outcome, c.ttl, now);
      }
    case Fail(l, runner, reason) => FailSparesClosed(c, db, l, runner, reason, now);
    case ExpireStale(ls) =>
      if forall l :: l in ls ==> l in db.leases {
        SweepSparesClosed(c, db, ls, now);
      }
    case _ =>
  }

  lemma OnlyTables(c: Setup, s: Sys, a: Act, now: int)
    requires OnTables(a)
    ensures Step(c, s, a, now).db == TableStep(c, s.db, a, now)
  {
  }

  lemma WorkersLeaveLeases(c: Setup, s: Sys, a: Act, now: int)
    requires !OnTables(a)
    ensures Step(c, s, a, now).db.leases == s.db.leases
  {
  }

  lemma ClosedStayClosed(c: Setup, s: Sys, a: Act, now: int)
    requires LI.LeasesBelong(s.db)
    ensures ClosedStay(s.db, Step(c, s, a, now).db)
  {
    if OnTables(a) {
      TableStepSparesClosed(c, s.db, a, now);
      OnlyTables(c, s, a, now);
    } else {
      WorkersLeaveLeases(c, s, a, now);
      WriteSparesClosed(s.db, Step(c, s, a, now).db, s.db.nextLease, Lease(0, "", 0, 0, 0, LeaseActive));
    }
  }

  lemma ClosedStaysThrough(c: Setup, s: Sys, a: Act, now: int, l: LeaseId)
    requires Inv(c, s) && l in s.db.leases && s.db.leases[l].state == LeaseCompleted
    ensures var db' := Step(c, s, a, now).db; var id := s.db.leases[l].job;
            id in s.seen && (id in db'.jobs ==>
              l in db'.leases && db'.leases[l] == s.db.leases[l] &&
              Rank(db'.jobs[id].status) > Rank(Separating) && L.ActiveOf(db'.leases, id) == {})
  {
    var s' := Step(c, s, a, now);
    ClosedStayClosed(c, s, a, now);
    StepKeeps(c, s, a, now);
    if l in s'.db.leases {
      CompletedJobIsPast(s'.db, c.max, l);
    }
  }

  /** Over any further steps, a job with a completed lease keeps it, gets no active lease
      and never returns to separating. */
  lemma {:induction false} CompletedIsFinal(c: Setup, acts: seq<(Act, int)>, more: seq<(Act, int)>, l: LeaseId)
    requires c.max >= 1
    requires var db := Run(c, acts).db; l in db.leases && db.leases[l].state == LeaseCompleted
    ensures var db, db' := Run(c, acts).db, Run(c, acts + more).db; var id := db.leases[l].job;
            id in Run(c, acts + more).seen &&
            (id in db'.jobs ==>
              && l in db'.leases && db'.leases[l] == db.leases[l]
              && Rank(db'.jobs[id].status) > Rank(Separating)
              && L.ActiveOf(db'.leases, id) == {})
  {
    FinalNow(c, acts, l);
    FinalAfter(c, acts, more, l, Run(c, acts).db.leases[l]);
  }

  lemma FinalNow(c: Setup, acts: seq<(Act, int)>, l: LeaseId)
    requires c.max >= 1
    requires var db := Run(c, acts).db; l in db.leases && db.leases[l].state == LeaseCompleted
    ensures Final(Run(c, acts), l, Run(c, acts).db.leases[l])
  {
    EveryRunKeeps(c, acts);
    CompletedJobIsPast(Run(c, acts).db, c.max, l);
  }

  lemma {:induction false} FinalAfter(c: Setup, acts: seq<(Act, int)>, more: seq<(Act, int)>, l: LeaseId, lease: Lease)
    requires c.max >= 1 && lease.state == LeaseCompleted && Final(Run(c, acts), l, lease)
    ensures Final(Run(c, acts + more), l, lease)
  {
    if more == [] {
      assert acts + more == acts;
    } else {
      var rest, last := more[..|more| - 1], more[|more| - 1];
      FinalAfter(c, acts, rest, l, lease);
      FinalGoesOn(c, acts + rest, last, l, lease);
      assert acts + rest + [last] == acts + more;
    }
  }

  lemma FinalGoesOn(c: Setup, acts: seq<(Act, int)>, last: (Act, int), l: LeaseId, lease: Lease)
    requires c.max >= 1 && Final(Run(c, acts), l, lease) && lease.state == LeaseCompleted
    ensures Final(Run(c, acts + [last]), l, lease)
  {
    EveryRunKeeps(c, acts);
    StaysFinal(c, Run(c, acts), last.0, last.1, l, lease);
    assert (acts + [last])[..|acts|] == acts;
  }

  /** The completed lease of a job that is past separating, or the job is gone for good. */
  ghost predicate Final(s: Sys, l: LeaseId, lease: Lease)
  {
    && lease.job in s.seen
    && (lease.job in s.db.jobs ==>
          && l in s.db.leases && s.db.leases[l] == lease
          && Rank(s.db.jobs[lease.job].status) > Rank(Separating) && L.ActiveOf(s.db.leases, lease.job) == {})
  }

  lemma StaysFinal(c: Setup, s: Sys, a: Act, now: int, l: LeaseId, lease: Lease)
    requires Inv(c, s) && Final(s, l, lease) && lease.state == LeaseCompleted
    ensures Final(Step(c, s, a, now), l, lease)
  {
    SeenStaysSeen(c, s, a, now, lease.job);
    if lease.job in s.db.jobs {
      ClosedStaysThrough(c, s, a, now, l);
    } else {
      DeletedStaysDeleted(c, s, a, now, lease.job);
    }
  }

  lemma SeenStaysSeen(c: Setup, s: Sys, a: Act, now: int, id: JobId)
    requires id in s.seen
    ensures id in Step(c, s, a, now).seen
  {
  }

  lemma CompletedJobIsPast(db: Db, max: int, l: LeaseId)
    requires LI.LeasesOk(db, max) && l in db.leases && db.leases[l].state == LeaseCompleted
    ensures var id := db.leases[l].job;
            id in db.jobs && Rank(db.jobs[id].status) > Rank(Separating) && L.ActiveOf(db.leases, id) == {}
  {
    assert LI.JobFits(db, max, db.leases[l].job);
    assert l in L.CompletedOf(db.leases, db.leases[l].job);
  }

  /** Ids are never reused, so a job that is gone stays gone. */
  lemma DeletedStaysDeleted(c: Setup, s: Sys, a: Act, now: int, id: JobId)
    requires LI.LeasesOk(s.db, c.max) && id in s.seen && id !in s.db.jobs
    ensures id !in Step(c, s, a, now).db.jobs
  {
    if OnTables(a) {
      DeletedFromTables(c, s.db, a, now, id);
    }
  }

  lemma DeletedFromTables(c: Setup, db: Db, a: Act, now: int, id: JobId)
    requires OnTables(a) && LI.LeasesOk(db, c.max) && id !in db.jobs
    ensures id !in TableStep(c, db, a, now).jobs
  {
    TableStepForward(c, db, a, now);
  }
}
