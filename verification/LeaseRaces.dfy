/**
 The lease store one SQL statement at a time. Calls of any number of runners,
 workers and sweepers are suspended between their statements and interleave
 freely; anyone may move any job meanwhile.
 */
module LeaseRaces {
  import opened Prelude
  import opened Stages
  import opened Tables
  import L = Leases
  import LI = LeaseInvariant
  import Queue

  /** A call suspended before its next statement. */
  datatype Call =
    | FailChecked(l: LeaseId)                    // Fail: lease read as active, about to close it
    | PolicyDue(l: LeaseId)                      // its close took effect: the failure policy is due
    | PolicyCounted(l: LeaseId, n: nat)          // failures counted, about to move the job
    | CompleteChecked(l: LeaseId)                // Complete: lease read as active, about to read the job
    | CompleteVerified(l: LeaseId)               // stems verified, about to close the lease
    | HandingOff(l: LeaseId)                     // lease closed as completed, about to move the job
    | Reopening(l: LeaseId)                      // that move failed transiently
    | BeatChecked(l: LeaseId)                    // Heartbeat: lease read as active, about to extend it
    | BeatExtended(l: LeaseId)                   // about to read the job's progress
    | BeatRead(l: LeaseId, current: int)         // job read as separating, about to report
    | Dropping(l: LeaseId)                       // job read as gone, about to close the lease
    | ClaimInserted(l: LeaseId)                  // Claim: lease committed, about to move the job

  datatype World = World(db: Db, calls: map<nat, Call>, policies: map<LeaseId, nat>)

  datatype Stmt =
    | Begin(c: nat, call: Call, runner: RunnerId)
    | Close(c: nat)
    | CompleteRead(c: nat, verified: bool)
    | HandOff(c: nat, fault: bool)
    | Reopen(c: nat)
    | BeatUpdate(c: nat)
    | BeatJobRead(c: nat)
    | BeatReport(c: nat, fraction: real)
    | ClaimInsert(c: nat, id: JobId, runner: RunnerId, caps: L.Capabilities)
    | ClaimMove(c: nat)
    | Sweep(names: map<nat, LeaseId>)
    | PolicyCount(c: nat)
    | PolicyMove(c: nat, reason: string)
    | MoveJob(id: JobId, status: Status, progress: int, message: Message)
    | InsertJob(id: JobId, j: Job)
    | DeleteJobs(gone: set<JobId>)
    | Die(c: nat)

  function Returned(w: World, c: nat): World { w.(calls := w.calls - {c}) }

  function Goes(w: World, c: nat, call: Call): World { w.(calls := w.calls[c := call]) }

  function JobOf(db: Db, l: LeaseId): JobId
    requires l in db.leases
  {
    db.leases[l].job
  }

  predicate IsActive(db: Db, l: LeaseId) { l in db.leases && db.leases[l].state == LeaseActive }

  /** UPDATE … SET state WHERE id = l AND state = 'active'. */
  function Closed(db: Db, l: LeaseId, state: LeaseState, now: int): Db
  {
    if IsActive(db, l) then L.Closed(db, l, state, now) else db
  }

  /** The partial unique index: a second active lease of a job is refused. */
  predicate IndexAllows(db: Db, id: JobId) { L.ActiveOf(db.leases, id) == {} }

  /** The sweeper's RETURNING rows, each under a name of its own. */
  ghost predicate Fresh(w: World, names: map<nat, LeaseId>, now: int)
  {
    && (forall c :: c in names ==> c !in w.calls && names[c] in L.StaleLeases(w.db, now))
    && (forall c, d :: c in names && d in names && c != d ==> names[c] != names[d])
    && (forall l :: l in L.StaleLeases(w.db, now) ==> exists c :: c in names && names[c] == l)
  }

  function AfterSweep(w: World, names: map<nat, LeaseId>, now: int): World
  {
    w.(db := L.AfterExpiry(w.db, now), calls := w.calls + map c | c in names :: PolicyDue(names[c]))
  }

  ghost function Step(w: World, s: Stmt, max: int, ttl: int, now: int): World
  {
    match s
    case Begin(c, call, runner) =>
      if c !in w.calls && L.LeaseError(w.db, call.l, runner) == NoError &&
         (call.FailChecked? || call.CompleteChecked? || call.BeatChecked?)
      then Goes(w, c, call) else w
    case Close(c) =>
      if c !in w.calls then w
      else match w.calls[c] {
        case FailChecked(l) =>
          if IsActive(w.db, l) then Goes(w, c, PolicyDue(l)).(db := Closed(w.db, l, LeaseFailed, now)) else Returned(w, c)
        case CompleteVerified(l) =>
          if IsActive(w.db, l) then Goes(w, c, HandingOff(l)).(db := Closed(w.db, l, LeaseCompleted, now)) else Returned(w, c)
        case Dropping(l) => Returned(w, c).(db := Closed(w.db, l, LeaseFailed, now))
        case _ => w
      }
    case CompleteRead(c, verified) =>
      if c in w.calls && w.calls[c].CompleteChecked? && w.calls[c].l in w.db.leases then
        var l := w.calls[c].l;
        if JobOf(w.db, l) !in w.db.jobs then Returned(w, c)
        else if w.db.jobs[JobOf(w.db, l)].status != Separating then Goes(w, c, Dropping(l))
        else if verified then Goes(w, c, CompleteVerified(l)) else Returned(w, c)
      else w
    case HandOff(c, fault) =>
      if c in w.calls && w.calls[c].HandingOff? then
        var l := w.calls[c].l;
        if fault then Goes(w, c, Reopening(l))
        else if l !in w.db.leases then Returned(w, c)
        else Returned(w, c).(db := Queue.AfterTransition(w.db, JobOf(w.db, l), Finalizing, 76, Caption(Finalizing, 76), now))
      else w
    case Reopen(c) =>
      if c in w.calls && w.calls[c].Reopening? then
        var l := w.calls[c].l;
        if l in w.db.leases && w.db.leases[l].state == LeaseCompleted && IndexAllows(w.db, JobOf(w.db, l))
        then Returned(w, c).(db := L.WithLease(w.db, l, w.db.leases[l].(state := LeaseActive, heartbeatAt := now, expiresAt := now + ttl)))
        else Returned(w, c)
      else w
    case BeatUpdate(c) =>
      if c in w.calls && w.calls[c].BeatChecked? then
        var l := w.calls[c].l;
        if IsActive(w.db, l) then Goes(w, c, BeatExtended(l)).(db := L.Extended(w.db, l, ttl, now)) else Returned(w, c)
      else w
    case BeatJobRead(c) =>
      if c in w.calls && w.calls[c].BeatExtended? && w.calls[c].l in w.db.leases then
        var l := w.calls[c].l;
        if JobOf(w.db, l) !in w.db.jobs then Returned(w, c)
        else if w.db.jobs[JobOf(w.db, l)].status != Separating then Goes(w, c, Dropping(l))
        else Goes(w, c, BeatRead(l, w.db.jobs[JobOf(w.db, l)].progress))
      else w
    case BeatReport(c, fraction) =>
      if c in w.calls && w.calls[c].BeatRead? && w.calls[c].l in w.db.leases then
        var p := StageProgress(Separating, fraction);
        if p > w.calls[c].current
        then Returned(w, c).(db := Queue.AfterTransition(w.db, JobOf(w.db, w.calls[c].l), Separating, p, Caption(Separating, p), now))
        else Returned(w, c)
      else w
    case ClaimInsert(c, id, runner, caps) =>
      // NOT EXISTS may have been evaluated before a lock wait: the index decides.
      if c !in w.calls && L.Offered(w.db, id, max, caps) && IndexAllows(w.db, id)
      then Goes(w, c, ClaimInserted(w.db.nextLease)).(db := L.AfterInsert(w.db, id, runner, ttl, now))
      else w
    case ClaimMove(c) =>
      if c in w.calls && w.calls[c].ClaimInserted? && w.calls[c].l in w.db.leases
      then Returned(w, c).(db := Queue.AfterTransition(w.db, JobOf(w.db, w.calls[c].l), Separating, 28, Caption(Separating, 28), now))
      else w
    case Sweep(names) =>
      if Fresh(w, names, now) then AfterSweep(w, names, now) else w
    case PolicyCount(c) =>
      if c in w.calls && w.calls[c].PolicyDue? then
        var l := w.calls[c].l;
        Goes(w, c, PolicyCounted(l, if l in w.db.leases then L.Failures(w.db.leases, JobOf(w.db, l)) else 0))
          .(policies := w.policies[l := Runs(w, l) + 1])
      else w
    case PolicyMove(c, reason) =>
      if c in w.calls && w.calls[c].PolicyCounted? && w.calls[c].l in w.db.leases then
        var id, n := JobOf(w.db, w.calls[c].l), w.calls[c].n;
        Returned(w, c).(db :=
          if n >= max then Queue.AfterTransition(w.db, id, Failed, 0, GaveUp(n, L.Reason(reason)), now)
          else Queue.AfterTransition(w.db, id, Separating, 28, Retrying(n, L.Reason(reason)), now))
      else w
    case MoveJob(id, status, progress, message) => w.(db := Queue.AfterTransition(w.db, id, status, progress, message, now))
    case InsertJob(id, j) =>
      if id in w.db.jobs || L.ActiveOf(w.db.leases, id) != {} then w else w.(db := Queue.AfterCreate(w.db, id, j, now))
    case DeleteJobs(gone) => w.(db := Queue.AfterDelete(w.db, gone))
    case Die(c) => Returned(w, c)
  }

  /** How often the failure policy has been started for a lease. */
  function Runs(w: World, l: LeaseId): nat { if l in w.policies then w.policies[l] else 0 }

  ghost function Run(max: int, ttl: int, stmts: seq<(Stmt, int)>): World
  {
    if stmts == [] then World(Db(map[], map[], map[], 1, 1), map[], map[])
    else
      var (s, now) := stmts[|stmts| - 1];
      Step(Run(max, ttl, stmts[..|stmts| - 1]), s, max, ttl, now)
  }

  // --- What every interleaving keeps ------------------------------------------------

  /** Issued, and dead if it still exists. */
  predicate Dead(db: Db, l: LeaseId)
  {
    l < db.nextLease && (l in db.leases ==> L.IsDead(db.leases[l].state))
  }

  ghost predicate OneActive(leases: L.LeaseTable)
  {
    forall l, k :: l in leases && k in leases && leases[l].state == LeaseActive && leases[k].state == LeaseActive ==>
      l == k || leases[l].job != leases[k].job
  }

  /** At most one policy per lease is due or was started, and only for a dead lease. */
  ghost predicate PoliciesOnce(w: World)
  {
    && (forall c, d :: c in w.calls && d in w.calls && c != d && w.calls[c].PolicyDue? && w.calls[d].PolicyDue? ==>
          w.calls[c].l != w.calls[d].l)
    && (forall c :: c in w.calls && w.calls[c].PolicyDue? ==> Runs(w, w.calls[c].l) == 0 && Dead(w.db, w.calls[c].l))
    && (forall l :: l in w.policies && w.policies[l] > 0 ==> w.policies[l] == 1 && Dead(w.db, l))
  }

  ghost predicate Inv(w: World)
  {
    && (forall l :: l in w.db.leases ==> l < w.db.nextLease)
    && OneActive(w.db.leases)
    && PoliciesOnce(w)
  }

  /** From db to db', what was dead stays dead and nothing is issued twice. */
  ghost predicate DeadStays(db: Db, db': Db)
  {
    && db.nextLease <= db'.nextLease
    && (forall l :: l in db'.leases && l < db.nextLease ==> l in db.leases)
    && (forall l :: l in db'.leases && l in db.leases ==>
          db'.leases[l].job == db.leases[l].job &&
          (L.IsDead(db.leases[l].state) ==> db'.leases[l].state == db.leases[l].state))
  }

  lemma NoneActive(db: Db, id: JobId)
    requires IndexAllows(db, id)
    ensures forall l :: l in db.leases && db.leases[l].job == id ==> db.leases[l].state != LeaseActive
  {
    assert forall l :: l in db.leases && db.leases[l].job == id && db.leases[l].state == LeaseActive ==> l in L.ActiveOf(db.leases, id);
  }

  /** The index holds, ids are serial and dead leases are untouched. */
  ghost predicate TablesKept(db: Db, db': Db)
  {
    && (forall l :: l in db'.leases ==> l < db'.nextLease)
    && OneActive(db'.leases)
    && DeadStays(db, db')
  }

  lemma SameLeases(db: Db, db': Db)
    requires OneActive(db.leases) && (forall l :: l in db.leases ==> l < db.nextLease)
    requires db'.leases == db.leases && db'.nextLease == db.nextLease
    ensures TablesKept(db, db')
  {
  }

  /** An active lease is rewritten, whatever its new state. */
  lemma ActiveRewritten(db: Db, l: LeaseId, lease: Lease)
    requires OneActive(db.leases) && (forall l :: l in db.leases ==> l < db.nextLease)
    requires IsActive(db, l) && lease.job == db.leases[l].job
    ensures TablesKept(db, L.WithLease(db, l, lease))
  {
  }

  /** A completed lease is reopened where the index allows it. */
  lemma CompletedReopened(db: Db, l: LeaseId, lease: Lease)
    requires OneActive(db.leases) && (forall l :: l in db.leases ==> l < db.nextLease)
    requires l in db.leases && db.leases[l].state == LeaseCompleted && lease.job == db.leases[l].job
    requires IndexAllows(db, lease.job)
    ensures TablesKept(db, L.WithLease(db, l, lease))
  {
    NoneActive(db, lease.job);
  }

  lemma LeaseInserted(db: Db, id: JobId, runner: RunnerId, ttl: int, now: int)
    requires OneActive(db.leases) && (forall l :: l in db.leases ==> l < db.nextLease)
    requires IndexAllows(db, id)
    ensures TablesKept(db, L.AfterInsert(db, id, runner, ttl, now))
  {
    NoneActive(db, id);
  }

  lemma ExpiredOrDeleted(db: Db, now: int, gone: set<JobId>)
    requires OneActive(db.leases) && (forall l :: l in db.leases ==> l < db.nextLease)
    ensures TablesKept(db, L.AfterExpiry(db, now))
    ensures TablesKept(db, Queue.AfterDelete(db, gone))
  {
  }

  lemma CloseKeepsTables(w: World, c: nat, max: int, ttl: int, now: int)
    requires Inv(w)
    ensures TablesKept(w.db, Step(w, Close(c), max, ttl, now).db)
  {
    SameLeases(w.db, w.db);
    if c in w.calls && IsActive(w.db, w.calls[c].l) {
      var l := w.calls[c].l;
      ActiveRewritten(w.db, l, w.db.leases[l].(state := LeaseFailed, heartbeatAt := now));
      ActiveRewritten(w.db, l, w.db.leases[l].(state := LeaseCompleted, heartbeatAt := now));
    }
  }

  lemma ReopenKeepsTables(w: World, c: nat, max: int, ttl: int, now: int)
    requires Inv(w)
    ensures TablesKept(w.db, Step(w, Reopen(c), max, ttl, now).db)
  {
    SameLeases(w.db, w.db);
    if c in w.calls && w.calls[c].Reopening? {
      var l := w.calls[c].l;
      if l in w.db.leases && w.db.leases[l].state == LeaseCompleted && IndexAllows(w.db, JobOf(w.db, l)) {
        CompletedReopened(w.db, l, w.db.leases[l].(state := LeaseActive, heartbeatAt := now, expiresAt := now + ttl));
      }
    }
  }

  lemma BeatKeepsTables(w: World, c: nat, max: int, ttl: int, now: int)
    requires Inv(w)
    ensures TablesKept(w.db, Step(w, BeatUpdate(c), max, ttl, now).db)
  {
    SameLeases(w.db, w.db);
    if c in w.calls && IsActive(w.db, w.calls[c].l) {
      var l := w.calls[c].l;
      ActiveRewritten(w.db, l, w.db.leases[l].(heartbeatAt := now, expiresAt := now + ttl));
    }
  }

  lemma StepKeepsTables(w: World, s: Stmt, max: int, ttl: int, now: int)
    requires Inv(w)
    ensures TablesKept(w.db, Step(w, s, max, ttl, now).db)
  {
    match s
    case Close(c) => CloseKeepsTables(w, c, max, ttl, now);
    case Reopen(c) => ReopenKeepsTables(w, c, max, ttl, now);
    case BeatUpdate(c) => BeatKeepsTables(w, c, max, ttl, now);
    case ClaimInsert(c, id, runner, caps) =>
      SameLeases(w.db, w.db);
      if IndexAllows(w.db, id) {
        LeaseInserted(w.db, id, runner, ttl, now);
      }
    case Sweep(_) =>
      SameLeases(w.db, w.db);
      ExpiredOrDeleted(w.db, now, {});
    case DeleteJobs(gone) => ExpiredOrDeleted(w.db, now, gone);
    case _ =>
      OthersLeaveLeases(w, s, max, ttl, now);
      SameLeases(w.db, Step(w, s, max, ttl, now).db);
  }

  lemma OthersLeaveLeases(w: World, s: Stmt, max: int, ttl: int, now: int)
    requires !(s.Close? || s.Reopen? || s.BeatUpdate? || s.ClaimInsert? || s.Sweep? || s.DeleteJobs?)
    ensures var db' := Step(w, s, max, ttl, now).db; db'.leases == w.db.leases && db'.nextLease == w.db.nextLease
  {
  }

  /** Moving a call without making a policy due. */
  lemma CallMoves(w: World, w': World)
    requires PoliciesOnce(w) && DeadStays(w.db, w'.db)
    requires w'.policies == w.policies
    requires forall c :: c in w'.calls && w'.calls[c].PolicyDue? ==> c in w.calls && w'.calls[c] == w.calls[c]
    ensures PoliciesOnce(w')
  {
  }

  /** A policy becomes due for a lease that was active a moment ago. */
  lemma PolicyBecomesDue(w: World, w': World, c: nat, l: LeaseId)
    requires Inv(w) && DeadStays(w.db, w'.db) && IsActive(w.db, l)
    requires w'.policies == w.policies && w'.calls == w.calls[c := PolicyDue(l)]
    requires Dead(w'.db, l)
    ensures PoliciesOnce(w')
  {
  }

  lemma PolicyStarts(w: World, w': World, c: nat, l: LeaseId, n: nat)
    requires PoliciesOnce(w) && c in w.calls && w.calls[c] == PolicyDue(l)
    requires w'.db == w.db && w'.calls == w.calls[c := PolicyCounted(l, n)] && w'.policies == w.policies[l := Runs(w, l) + 1]
    ensures PoliciesOnce(w')
  {
  }

  /** After the sweep a call's policy is due because the sweep named it, or was due before. */
  lemma SweptCalls(w: World, names: map<nat, LeaseId>, now: int)
    requires Fresh(w, names, now)
    ensures var w' := AfterSweep(w, names, now);
            && (forall c :: c in names ==> c in w'.calls && w'.calls[c] == PolicyDue(names[c]))
            && (forall c :: c in w'.calls && c !in names ==> c in w.calls && w'.calls[c] == w.calls[c])
  {
  }

  lemma SweptDie(w: World, names: map<nat, LeaseId>, now: int, c: nat)
    requires Fresh(w, names, now) && c in names && forall l :: l in w.db.leases ==> l < w.db.nextLease
    ensures Dead(AfterSweep(w, names, now).db, names[c]) && !Dead(w.db, names[c])
  {
    assert names[c] in L.StaleLeases(w.db, now);
  }

  lemma SweptAreNew(w: World, names: map<nat, LeaseId>, now: int, c: nat)
    requires PoliciesOnce(w) && Fresh(w, names, now) && c in names
    requires forall l :: l in w.db.leases ==> l < w.db.nextLease
    ensures Dead(AfterSweep(w, names, now).db, names[c]) && Runs(w, names[c]) == 0
    ensures forall d :: d in w.calls && w.calls[d].PolicyDue? ==> w.calls[d].l != names[c]
  {
    SweptDie(w, names, now, c);
  }

  lemma SweepMakesDue(w: World, names: map<nat, LeaseId>, now: int)
    requires PoliciesOnce(w) && DeadStays(w.db, AfterSweep(w, names, now).db) && Fresh(w, names, now)
    requires forall l :: l in w.db.leases ==> l < w.db.nextLease
    ensures PoliciesOnce(AfterSweep(w, names, now))
  {
    var w' := AfterSweep(w, names, now);
    SweptCalls(w, names, now);
    forall c | c in names
      ensures Dead(w'.db, names[c]) && Runs(w, names[c]) == 0
      ensures forall d :: d in w.calls && w.calls[d].PolicyDue? ==> w.calls[d].l != names[c]
    {
      SweptAreNew(w, names, now, c);
    }
    MergedPolicies(w, w', names);
  }

  /** Policies newly due for leases no policy knows join those of before. */
  lemma MergedPolicies(w: World, w': World, names: map<nat, LeaseId>)
    requires PoliciesOnce(w) && DeadStays(w.db, w'.db) && w'.policies == w.policies
    requires forall c :: c in names ==> c in w'.calls && w'.calls[c] == PolicyDue(names[c]) && Dead(w'.db, names[c])
    requires forall c :: c in w'.calls && c !in names ==> c in w.calls && w'.calls[c] == w.calls[c]
    requires forall c, d :: c in names && d in names && c != d ==> names[c] != names[d]
    requires forall c :: c in names ==> Runs(w, names[c]) == 0
    requires forall c, d :: c in names && d in w.calls && w.calls[d].PolicyDue? ==> w.calls[d].l != names[c]
    ensures PoliciesOnce(w')
  {
  }

  lemma StepKeeps(w: World, s: Stmt, max: int, ttl: int, now: int)
    requires Inv(w)
    ensures Inv(Step(w, s, max, ttl, now))
    ensures DeadStays(w.db, Step(w, s, max, ttl, now).db)
  {
    StepKeepsTables(w, s, max, ttl, now);
    StepKeepsPolicies(w, s, max, ttl, now);
  }

  lemma StepKeepsPolicies(w: World, s: Stmt, max: int, ttl: int, now: int)
    requires Inv(w) && DeadStays(w.db, Step(w, s, max, ttl, now).db)
    ensures PoliciesOnce(Step(w, s, max, ttl, now))
  {
    var w' := Step(w, s, max, ttl, now);
    match s
    case Close(c) => ClosePolicies(w, c, max, ttl, now);
    case Sweep(names) =>
      if Fresh(w, names, now) {
        SweepMakesDue(w, names, now);
      }
    case PolicyCount(c) => CountPolicies(w, c, max, ttl, now);
    case _ =>
      NoPolicyBecomesDue(w, s, max, ttl, now);
      CallMoves(w, w');
  }

  lemma ClosePolicies(w: World, c: nat, max: int, ttl: int, now: int)
    requires Inv(w) && DeadStays(w.db, Step(w, Close(c), max, ttl, now).db)
    ensures PoliciesOnce(Step(w, Close(c), max, ttl, now))
  {
    var w' := Step(w, Close(c), max, ttl, now);
    if c in w.calls && w.calls[c].FailChecked? && IsActive(w.db, w.calls[c].l) {
      PolicyBecomesDue(w, w', c, w.calls[c].l);
    } else {
      CallMoves(w, w');
    }
  }

  lemma CountPolicies(w: World, c: nat, max: int, ttl: int, now: int)
    requires PoliciesOnce(w)
    ensures PoliciesOnce(Step(w, PolicyCount(c), max, ttl, now))
  {
    var w' := Step(w, PolicyCount(c), max, ttl, now);
    if c in w.calls && w.calls[c].PolicyDue? {
      PolicyStarts(w, w', c, w.calls[c].l, w'.calls[c].n);
    }
  }

  lemma NoPolicyBecomesDue(w: World, s: Stmt, max: int, ttl: int, now: int)
    requires !s.Close? && !s.Sweep? && !s.PolicyCount?
    ensures var w' := Step(w, s, max, ttl, now);
            w'.policies == w.policies &&
            forall c :: c in w'.calls && w'.calls[c].PolicyDue? ==> c in w.calls && w'.calls[c] == w.calls[c]
  {
  }

  lemma {:induction false} EveryRunKeeps(max: int, ttl: int, stmts: seq<(Stmt, int)>)
    ensures Inv(Run(max, ttl, stmts))
  {
    if stmts != [] {
      EveryRunKeeps(max, ttl, stmts[..|stmts| - 1]);
      StepKeeps(Run(max, ttl, stmts[..|stmts| - 1]), stmts[|stmts| - 1].0, max, ttl, stmts[|stmts| - 1].1);
    }
  }

  // --- What it means for the readers of the tables ---------------------------------------

  /** No interleaving gives a job two active leases, reopened leases included. */
  lemma NeverTwoActive(max: int, ttl: int, stmts: seq<(Stmt, int)>, l: LeaseId, k: LeaseId)
    requires var leases := Run(max, ttl, stmts).db.leases;
             l in leases && k in leases && leases[l].job == leases[k].job &&
             leases[l].state == LeaseActive && leases[k].state == LeaseActive
    ensures l == k
  {
    EveryRunKeeps(max, ttl, stmts);
  }

  /** The failure policy is started at most once per lease, and only for one that failed or expired. */
  lemma PolicyAtMostOnce(max: int, ttl: int, stmts: seq<(Stmt, int)>, l: LeaseId)
    ensures var w := Run(max, ttl, stmts);
            && Runs(w, l) <= 1
            && (Runs(w, l) == 1 ==>
                  (l in w.db.leases ==> L.IsDead(w.db.leases[l].state)) &&
                  forall c :: c in w.calls ==> w.calls[c] != PolicyDue(l))
  {
    EveryRunKeeps(max, ttl, stmts);
  }

  lemma DeadStaysTransitive(a: Db, b: Db, c: Db)
    requires DeadStays(a, b) && DeadStays(b, c)
    requires forall l :: l in a.leases ==> l < a.nextLease
    requires forall l :: l in b.leases ==> l < b.nextLease
    ensures DeadStays(a, c)
  {
  }

  /** One statement more leaves the dead dead. */
  lemma OneMoreStmt(max: int, ttl: int, stmts: seq<(Stmt, int)>, last: (Stmt, int))
    ensures DeadStays(Run(max, ttl, stmts).db, Run(max, ttl, stmts + [last]).db)
  {
    EveryRunKeeps(max, ttl, stmts);
    StepKeeps(Run(max, ttl, stmts), last.0, max, ttl, last.1);
    assert (stmts + [last])[..|stmts|] == stmts;
  }

  lemma Reaches(max: int, ttl: int, stmts: seq<(Stmt, int)>, rest: seq<(Stmt, int)>, last: (Stmt, int))
    requires DeadStays(Run(max, ttl, stmts).db, Run(max, ttl, rest).db)
    ensures DeadStays(Run(max, ttl, stmts).db, Run(max, ttl, rest + [last]).db)
  {
    EveryRunKeeps(max, ttl, stmts);
    EveryRunKeeps(max, ttl, rest);
    OneMoreStmt(max, ttl, rest, last);
    DeadStaysTransitive(Run(max, ttl, stmts).db, Run(max, ttl, rest).db, Run(max, ttl, rest + [last]).db);
  }

  lemma {:induction false} DeadForever(max: int, ttl: int, stmts: seq<(Stmt, int)>, more: seq<(Stmt, int)>)
    ensures DeadStays(Run(max, ttl, stmts).db, Run(max, ttl, stmts + more).db)
  {
    if more == [] {
      assert stmts + more == stmts;
    } else {
      var rest, last := more[..|more| - 1], more[|more| - 1];
      DeadForever(max, ttl, stmts, rest);
      Reaches(max, ttl, stmts, stmts + rest, last);
      assert stmts + rest + [last] == stmts + more;
    }
  }

  /** Whatever runs on, a job's failures are never fewer, unless its lease rows were deleted. */
  lemma FailuresNeverDecrease(max: int, ttl: int, stmts: seq<(Stmt, int)>, more: seq<(Stmt, int)>, id: JobId)
    requires L.DeadOf(Run(max, ttl, stmts).db.leases, id) <= Run(max, ttl, stmts + more).db.leases.Keys
    ensures L.DeadOf(Run(max, ttl, stmts).db.leases, id) <= L.DeadOf(Run(max, ttl, stmts + more).db.leases, id)
    ensures L.Failures(Run(max, ttl, stmts).db.leases, id) <= L.Failures(Run(max, ttl, stmts + more).db.leases, id)
  {
    var before, after := Run(max, ttl, stmts).db.leases, Run(max, ttl, stmts + more).db.leases;
    DeadForever(max, ttl, stmts, more);
    forall l | l in L.DeadOf(before, id)
      ensures l in L.DeadOf(after, id)
    {
      assert l in after;
    }
    SubsetCard(L.DeadOf(before, id), L.DeadOf(after, id));
  }

  // --- Where forward-only stops ------------------------------------------------------------

  /** A heartbeat that read the job as separating writes it back to separating
      whatever happened since, unless the job has ended meanwhile. */
  lemma LateReportDragsBack(w: World, c: nat, fraction: real, max: int, ttl: int, now: int)
    requires c in w.calls && w.calls[c].BeatRead? && w.calls[c].l in w.db.leases
    requires JobOf(w.db, w.calls[c].l) in w.db.jobs
    ensures var id := JobOf(w.db, w.calls[c].l); var s := w.db.jobs[id].status;
            var s' := Step(w, BeatReport(c, fraction), max, ttl, now).db.jobs[id].status;
            s' != s <==> s != Separating && !IsTerminal(s) && StageProgress(Separating, fraction) > w.calls[c].current
    ensures var id := JobOf(w.db, w.calls[c].l);
            var s' := Step(w, BeatReport(c, fraction), max, ttl, now).db.jobs[id].status;
            s' == w.db.jobs[id].status || s' == Separating
  {
  }

  /** The job is past separating and has not ended. */
  predicate HandedOn(db: Db, id: JobId)
  {
    id in db.jobs && Rank(db.jobs[id].status) > Rank(Separating) && !IsTerminal(db.jobs[id].status)
  }

  /** A statement of a call on an existing lease of the job. */
  predicate Concerns(w: World, c: nat, id: JobId)
  {
    c in w.calls && w.calls[c].l in w.db.leases && JobOf(w.db, w.calls[c].l) == id
  }

  /** The statements that write separating without looking where the job is by now. */
  predicate WritesSeparating(w: World, s: Stmt, id: JobId, max: int)
  {
    match s
    case BeatReport(c, fraction) =>
      Concerns(w, c, id) && w.calls[c].BeatRead? && StageProgress(Separating, fraction) > w.calls[c].current
    case PolicyMove(c, _) => Concerns(w, c, id) && w.calls[c].PolicyCounted? && w.calls[c].n < max
    case ClaimMove(c) => Concerns(w, c, id) && w.calls[c].ClaimInserted?
    case MoveJob(k, status, _, _) => k == id && status == Separating
    case _ => false
  }

  lemma MovedTo(db: Db, k: JobId, status: Status, progress: int, message: Message, now: int, id: JobId)
    requires id in db.jobs
    ensures var db' := Queue.AfterTransition(db, k, status, progress, message, now);
            id in db'.jobs && db'.jobs[id].status == if k == id && !IsTerminal(db.jobs[id].status) then status else db.jobs[id].status
  {
  }

  /** A job handed on is pulled back to separating by exactly these statements: a late heartbeat
      that beats the progress it read, a late policy that counted attempts left, the move of a late
      claim, and whoever else writes separating. */
  lemma PulledBackExactlyBy(w: World, s: Stmt, max: int, ttl: int, now: int, id: JobId)
    requires HandedOn(w.db, id)
    ensures var db' := Step(w, s, max, ttl, now).db;
            id in db'.jobs && db'.jobs[id].status == Separating <==> WritesSeparating(w, s, id, max)
  {
    match s
    case HandOff(c, _) => HandOffNeverPulls(w, s, max, ttl, now, id);
    case BeatReport(c, fraction) =>
      if c in w.calls && w.calls[c].BeatRead? && w.calls[c].l in w.db.leases {
        var p := StageProgress(Separating, fraction);
        MovedTo(w.db, JobOf(w.db, w.calls[c].l), Separating, p, Caption(Separating, p), now, id);
      }
    case ClaimMove(c) =>
      if c in w.calls && w.calls[c].ClaimInserted? && w.calls[c].l in w.db.leases {
        MovedTo(w.db, JobOf(w.db, w.calls[c].l), Separating, 28, Caption(Separating, 28), now, id);
      }
    case PolicyMove(c, reason) =>
      if c in w.calls && w.calls[c].PolicyCounted? && w.calls[c].l in w.db.leases {
        var n := w.calls[c].n;
        MovedTo(w.db, JobOf(w.db, w.calls[c].l), Failed, 0, GaveUp(n, L.Reason(reason)), now, id);
        MovedTo(w.db, JobOf(w.db, w.calls[c].l), Separating, 28, Retrying(n, L.Reason(reason)), now, id);
      }
    case MoveJob(k, status, progress, message) => MovedTo(w.db, k, status, progress, message, now, id);
    case _ =>
  }

  lemma HandOffNeverPulls(w: World, s: Stmt, max: int, ttl: int, now: int, id: JobId)
    requires HandedOn(w.db, id) && s.HandOff?
    ensures var db' := Step(w, s, max, ttl, now).db; id in db'.jobs && db'.jobs[id].status != Separating
  {
    if s.c in w.calls && w.calls[s.c].HandingOff? && w.calls[s.c].l in w.db.leases {
      MovedTo(w.db, JobOf(w.db, w.calls[s.c].l), Finalizing, 76, Caption(Finalizing, 76), now, id);
    }
  }

  const SEPARATING_JOB := Job("fast", "internal", None, false, Pending, 0, None, 0, None, None, 1000)
  const ANYONE := L.Capabilities(false, ["htdemucs"], "internal")

  /** A job any runner may take. */
  predicate Simple(j: Job) { j.model == None && j.quality == "fast" && j.stack == "internal" && !j.transcribe }

  lemma AnyoneMayTake(db: Db, id: JobId, max: int)
    requires id in db.jobs && db.jobs[id].status == Separating && Simple(db.jobs[id])
    requires L.ActiveOf(db.leases, id) == {} && L.Failures(db.leases, id) < max
    ensures L.Offered(db, id, max, ANYONE)
  {
    assert ANYONE.recipes[0] == "htdemucs";
  }

  /** One runner whose heartbeat and completion overlap. */
  const OVERLAP: seq<(Stmt, int)> := [
    (InsertJob(7, SEPARATING_JOB), 0),
    (MoveJob(7, Separating, 28, Caption(Separating, 28)), 1),
    (ClaimInsert(1, 7, "r", ANYONE), 2),
    (Begin(2, BeatChecked(1), "r"), 3),
    (BeatUpdate(2), 4),
    (BeatJobRead(2), 5),
    (Begin(3, CompleteChecked(1), "r"), 6),
    (CompleteRead(3, true), 7),
    (Close(3), 8),
    (HandOff(3, false), 9),
    (BeatReport(2, 1.0), 10)]

  lemma Runs1(stmts: seq<(Stmt, int)>, s: Stmt, now: int, max: int, ttl: int)
    ensures Run(max, ttl, stmts + [(s, now)]) == Step(Run(max, ttl, stmts), s, max, ttl, now)
  {
    assert (stmts + [(s, now)])[..|stmts|] == stmts;
  }

  /** The one job and its one lease, and who is suspended where. */
  ghost predicate Snapshot(w: World, state: LeaseState, status: Status, calls: map<nat, Call>)
  {
    && 7 in w.db.jobs && w.db.jobs[7].status == status
    && 1 in w.db.leases && w.db.leases[1].state == state && w.db.leases[1].runner == "r" && w.db.leases[1].job == 7
    && w.calls == calls
  }

  lemma JobReachesSeparating()
    ensures var w2 := Run(3, 60, OVERLAP[..2]);
            && w2.db.leases == map[] && w2.db.nextLease == 1 && w2.calls == map[]
            && w2.db.jobs.Keys == {7} && w2.db.jobs[7].status == Separating && w2.db.jobs[7].progress == 28
            && Simple(w2.db.jobs[7])
  {
    assert OVERLAP[..0] == [];
    Prefix(0);
    Prefix(1);
    var w1 := Run(3, 60, OVERLAP[..1]);
    assert w1.db.leases == map[] && w1.db.nextLease == 1;
  }

  lemma OverlapBegins()
    ensures Snapshot(Run(3, 60, OVERLAP[..3]), LeaseActive, Separating, map[1 := ClaimInserted(1)])
    ensures var db := Run(3, 60, OVERLAP[..3]).db;
            && db.jobs[7].progress == 28 && Simple(db.jobs[7])
            && db.leases.Keys == {1} && db.nextLease == 2 && db.leases[1].expiresAt == 62
  {
    JobReachesSeparating();
    Prefix(2);
    var w2 := Run(3, 60, OVERLAP[..2]);
    assert L.ActiveOf(w2.db.leases, 7) == {} && L.DeadOf(w2.db.leases, 7) == {};
    AnyoneMayTake(w2.db, 7, 3);
  }

  lemma HeartbeatBegins()
    ensures Snapshot(Run(3, 60, OVERLAP[..4]), LeaseActive, Separating, map[1 := ClaimInserted(1), 2 := BeatChecked(1)])
    ensures Run(3, 60, OVERLAP[..4]).db.jobs[7].progress == 28
  {
    OverlapBegins();
    Prefix(3);
  }

  lemma HeartbeatExtends()
    ensures Snapshot(Run(3, 60, OVERLAP[..5]), LeaseActive, Separating, map[1 := ClaimInserted(1), 2 := BeatExtended(1)])
    ensures Run(3, 60, OVERLAP[..5]).db.jobs[7].progress == 28
  {
    HeartbeatBegins();
    Prefix(4);
  }

  lemma HeartbeatReads()
    ensures Snapshot(Run(3, 60, OVERLAP[..6]), LeaseActive, Separating, map[1 := ClaimInserted(1), 2 := BeatRead(1, 28)])
  {
    HeartbeatExtends();
    Prefix(5);
  }

  lemma CompletionVerifies()
    ensures Snapshot(Run(3, 60, OVERLAP[..8]), LeaseActive, Separating,
                     map[1 := ClaimInserted(1), 2 := BeatRead(1, 28), 3 := CompleteVerified(1)])
  {
    HeartbeatReads();
    Prefix(6);
    Prefix(7);
  }

  lemma CompletionCloses()
    ensures Snapshot(Run(3, 60, OVERLAP[..9]), LeaseCompleted, Separating,
                     map[1 := ClaimInserted(1), 2 := BeatRead(1, 28), 3 := HandingOff(1)])
  {
    CompletionVerifies();
    Prefix(8);
  }

  lemma CompletionHandsOff()
    ensures Snapshot(Run(3, 60, OVERLAP[..10]), LeaseCompleted, Finalizing, map[1 := ClaimInserted(1), 2 := BeatRead(1, 28)])
  {
    CompletionCloses();
    Prefix(9);
  }

  /** So at statement level a job with a completed lease can be back in separating. */
  lemma HandedOffJobCanReturn()
    ensures exists stmts, id ::
              var db := Run(3, 60, stmts).db;
              id in db.jobs && db.jobs[id].status == Separating && L.CompletedOf(db.leases, id) != {}
  {
    CompletionHandsOff();
    var w := Run(3, 60, OVERLAP[..10]);
    StageProgressMonotone(Separating, 1.0, 1.0);
    LateReportDragsBack(w, 2, 1.0, 3, 60, 10);
    Prefix(10);
    assert OVERLAP[..11] == OVERLAP;
    assert 1 in L.CompletedOf(Run(3, 60, OVERLAP).db.leases, 7);
  }

  lemma Prefix(i: nat)
    requires i < |OVERLAP|
    ensures Run(3, 60, OVERLAP[..i + 1]) == Step(Run(3, 60, OVERLAP[..i]), OVERLAP[i].0, 3, 60, OVERLAP[i].1)
  {
    assert OVERLAP[..i + 1] == OVERLAP[..i] + [OVERLAP[i]];
    Runs1(OVERLAP[..i], OVERLAP[i].0, OVERLAP[i].1, 3, 60);
  }

  // --- The late policy and the late claim ---------------------------------------------------

  /** A runner fails its lease; before the policy's move another runner takes the job and completes. */
  const LATE_POLICY: seq<(Stmt, int)> := [
    (Begin(2, FailChecked(1), "r"), 3),
    (Close(2), 4),
    (PolicyCount(2), 5),
    (ClaimInsert(3, 7, "q", ANYONE), 6),
    (ClaimMove(3), 7),
    (Begin(4, CompleteChecked(2), "q"), 8),
    (CompleteRead(4, true), 9),
    (Close(4), 10),
    (HandOff(4, false), 11),
    (PolicyMove(2, ""), 12)]

  /** A claim is slow to move its job; its lease expires, and another runner completes the job. */
  const LATE_CLAIM: seq<(Stmt, int)> := [
    (Sweep(map[2 := 1]), 63),
    (ClaimInsert(3, 7, "q", ANYONE), 64),
    (ClaimMove(3), 65),
    (Begin(4, CompleteChecked(2), "q"), 66),
    (CompleteRead(4, true), 67),
    (Close(4), 68),
    (HandOff(4, false), 69),
    (ClaimMove(1), 70)]

  /** The world after the claim of lease 1 and the first i statements of a story. */
  ghost function After(story: seq<(Stmt, int)>, i: nat): World
    requires i <= |story|
  {
    Run(3, 60, OVERLAP[..3] + story[..i])
  }

  lemma Told(story: seq<(Stmt, int)>, i: nat)
    requires i < |story|
    ensures After(story, i + 1) == Step(After(story, i), story[i].0, 3, 60, story[i].1)
  {
    assert OVERLAP[..3] + story[..i + 1] == OVERLAP[..3] + story[..i] + [story[i]];
    Runs1(OVERLAP[..3] + story[..i], story[i].0, story[i].1, 3, 60);
  }

  /** The job, its two leases, and who is suspended where. */
  ghost predicate Stands(w: World, status: Status, first: LeaseState, second: LeaseState, calls: map<nat, Call>)
  {
    && 7 in w.db.jobs && w.db.jobs[7].status == status
    && 1 in w.db.leases && w.db.leases[1].state == first && w.db.leases[1].job == 7
    && 2 in w.db.leases && w.db.leases[2].state == second && w.db.leases[2].job == 7 && w.db.leases[2].runner == "q"
    && w.calls == calls
  }

  /** The job is open for a claim of lease 2, lease 1 being dead. */
  ghost predicate Open(w: World, first: LeaseState, calls: map<nat, Call>)
  {
    && 7 in w.db.jobs && w.db.jobs[7].status == Separating && Simple(w.db.jobs[7])
    && w.db.leases.Keys == {1} && w.db.leases[1].state == first && L.IsDead(first) && w.db.leases[1].job == 7
    && w.db.nextLease == 2 && w.calls == calls
  }

  lemma SecondClaim(w: World, first: LeaseState, calls: map<nat, Call>, now: int)
    requires Open(w, first, calls) && 3 !in calls
    ensures Stands(Step(w, ClaimInsert(3, 7, "q", ANYONE), 3, 60, now), Separating, first, LeaseActive, calls[3 := ClaimInserted(2)])
  {
    assert L.ActiveOf(w.db.leases, 7) == {} && L.DeadOf(w.db.leases, 7) == {1};
    AnyoneMayTake(w.db, 7, 3);
  }

  lemma SecondMove(w: World, first: LeaseState, calls: map<nat, Call>, now: int)
    requires Stands(w, Separating, first, LeaseActive, calls[3 := ClaimInserted(2)]) && 3 !in calls
    ensures Stands(Step(w, ClaimMove(3), 3, 60, now), Separating, first, LeaseActive, calls)
  {
    assert calls[3 := ClaimInserted(2)] - {3} == calls;
  }

  lemma SecondChecks(w: World, first: LeaseState, calls: map<nat, Call>, now: int)
    requires Stands(w, Separating, first, LeaseActive, calls) && 4 !in calls
    ensures Stands(Step(w, Begin(4, CompleteChecked(2), "q"), 3, 60, now), Separating, first, LeaseActive, calls[4 := CompleteChecked(2)])
  {
  }

  lemma SecondReads(w: World, first: LeaseState, calls: map<nat, Call>, now: int)
    requires Stands(w, Separating, first, LeaseActive, calls[4 := CompleteChecked(2)])
    ensures Stands(Step(w, CompleteRead(4, true), 3, 60, now), Separating, first, LeaseActive, calls[4 := CompleteVerified(2)])
  {
    assert calls[4 := CompleteChecked(2)][4 := CompleteVerified(2)] == calls[4 := CompleteVerified(2)];
  }

  lemma SecondCloses(w: World, first: LeaseState, calls: map<nat, Call>, now: int)
    requires Stands(w, Separating, first, LeaseActive, calls[4 := CompleteVerified(2)])
    ensures Stands(Step(w, Close(4), 3, 60, now), Separating, first, LeaseCompleted, calls[4 := HandingOff(2)])
  {
    assert calls[4 := CompleteVerified(2)][4 := HandingOff(2)] == calls[4 := HandingOff(2)];
  }

  lemma SecondHandsOff(w: World, first: LeaseState, calls: map<nat, Call>, now: int)
    requires Stands(w, Separating, first, LeaseCompleted, calls[4 := HandingOff(2)]) && 4 !in calls
    ensures Stands(Step(w, HandOff(4, false), 3, 60, now), Finalizing, first, LeaseCompleted, calls)
  {
    assert calls[4 := HandingOff(2)] - {4} == calls;
  }

  /** From the open job the second runner takes it and hands it on. */
  lemma SecondRunnerDelivers(story: seq<(Stmt, int)>, i: nat, first: LeaseState, calls: map<nat, Call>)
    requires i + 6 < |story| && Open(After(story, i), first, calls) && 3 !in calls && 4 !in calls
    requires story[i].0 == ClaimInsert(3, 7, "q", ANYONE) && story[i + 1].0 == ClaimMove(3)
    requires story[i + 2].0 == Begin(4, CompleteChecked(2), "q") && story[i + 3].0 == CompleteRead(4, true)
    requires story[i + 4].0 == Close(4) && story[i + 5].0 == HandOff(4, false)
    ensures Stands(After(story, i + 6), Finalizing, first, LeaseCompleted, calls)
  {
    Told(story, i);
    SecondClaim(After(story, i), first, calls, story[i].1);
    Told(story, i + 1);
    SecondMove(After(story, i + 1), first, calls, story[i + 1].1);
    Told(story, i + 2);
    SecondChecks(After(story, i + 2), first, calls, story[i + 2].1);
    Told(story, i + 3);
    SecondReads(After(story, i + 3), first, calls, story[i + 3].1);
    Told(story, i + 4);
    SecondCloses(After(story, i + 4), first, calls, story[i + 4].1);
    Told(story, i + 5);
    SecondHandsOff(After(story, i + 5), first, calls, story[i + 5].1);
  }

  lemma FirstFails()
    ensures Open(After(LATE_POLICY, 3), LeaseFailed, map[1 := ClaimInserted(1), 2 := PolicyCounted(1, 1)])
  {
    OverlapBegins();
    assert OVERLAP[..3] + LATE_POLICY[..0] == OVERLAP[..3];
    Told(LATE_POLICY, 0);
    Told(LATE_POLICY, 1);
    FailOpens(After(LATE_POLICY, 0), 3, 4);
    Told(LATE_POLICY, 2);
    PolicyCounts(After(LATE_POLICY, 2), 5);
  }

  lemma FailOpens(w: World, now: int, later: int)
    requires Snapshot(w, LeaseActive, Separating, map[1 := ClaimInserted(1)]) && Simple(w.db.jobs[7])
    requires w.db.leases.Keys == {1} && w.db.nextLease == 2
    ensures Open(Step(Step(w, Begin(2, FailChecked(1), "r"), 3, 60, now), Close(2), 3, 60, later), LeaseFailed,
                 map[1 := ClaimInserted(1), 2 := PolicyDue(1)])
  {
  }

  lemma PolicyCounts(w: World, now: int)
    requires Open(w, LeaseFailed, map[1 := ClaimInserted(1), 2 := PolicyDue(1)])
    ensures Open(Step(w, PolicyCount(2), 3, 60, now), LeaseFailed, map[1 := ClaimInserted(1), 2 := PolicyCounted(1, 1)])
  {
    assert L.DeadOf(w.db.leases, 7) == {1};
  }

  /** After the policy of a lease counted attempts left, another runner completes the job, and the
      policy's move pulls it back. */
  lemma LatePolicyPullsBack()
    ensures HandedOn(After(LATE_POLICY, 9).db, 7) && L.CompletedOf(After(LATE_POLICY, 9).db.leases, 7) != {}
    ensures var db := After(LATE_POLICY, 10).db;
            7 in db.jobs && db.jobs[7].status == Separating && L.CompletedOf(db.leases, 7) != {}
  {
    FirstFails();
    var calls := map[1 := ClaimInserted(1), 2 := PolicyCounted(1, 1)];
    SecondRunnerDelivers(LATE_POLICY, 3, LeaseFailed, calls);
    PullsBack(LATE_POLICY, 9, LeaseFailed, calls);
  }

  /** One writer of separating is left in a story whose job was handed on. */
  lemma PullsBack(story: seq<(Stmt, int)>, i: nat, first: LeaseState, calls: map<nat, Call>)
    requires i < |story| && Stands(After(story, i), Finalizing, first, LeaseCompleted, calls)
    requires (story[i].0.PolicyMove? || story[i].0.ClaimMove?) && WritesSeparating(After(story, i), story[i].0, 7, 3)
    ensures HandedOn(After(story, i).db, 7) && L.CompletedOf(After(story, i).db.leases, 7) != {}
    ensures var db := After(story, i + 1).db; 7 in db.jobs && db.jobs[7].status == Separating && L.CompletedOf(db.leases, 7) != {}
  {
    var w := After(story, i);
    Told(story, i);
    PulledBackExactlyBy(w, story[i].0, 3, 60, story[i].1, 7);
    assert After(story, i + 1).db.leases == w.db.leases;
    assert 2 in L.CompletedOf(w.db.leases, 7);
  }

  lemma FirstExpires()
    ensures Open(After(LATE_CLAIM, 1), LeaseExpired, map[1 := ClaimInserted(1), 2 := PolicyDue(1)])
  {
    OverlapBegins();
    assert OVERLAP[..3] + LATE_CLAIM[..0] == OVERLAP[..3];
    Told(LATE_CLAIM, 0);
    SweepOpens(After(LATE_CLAIM, 0), 63);
  }

  lemma SweepOpens(w: World, now: int)
    requires Snapshot(w, LeaseActive, Separating, map[1 := ClaimInserted(1)]) && Simple(w.db.jobs[7])
    requires w.db.leases.Keys == {1} && w.db.nextLease == 2 && w.db.leases[1].expiresAt < now
    ensures Open(Step(w, Sweep(map[2 := 1]), 3, 60, now), LeaseExpired, map[1 := ClaimInserted(1), 2 := PolicyDue(1)])
  {
    assert L.StaleLeases(w.db, now) == {1};
    assert 2 in map[2 := 1] && map[2 := 1][2] == 1;
  }

  /** A claim that moves its job only after the lease expired and another runner completed the job
      pulls it back too. */
  lemma LateClaimPullsBack()
    ensures HandedOn(After(LATE_CLAIM, 7).db, 7) && L.CompletedOf(After(LATE_CLAIM, 7).db.leases, 7) != {}
    ensures var db := After(LATE_CLAIM, 8).db;
            7 in db.jobs && db.jobs[7].status == Separating && L.CompletedOf(db.leases, 7) != {}
  {
    FirstExpires();
    var calls := map[1 := ClaimInserted(1), 2 := PolicyDue(1)];
    SecondRunnerDelivers(LATE_CLAIM, 1, LeaseExpired, calls);
    PullsBack(LATE_CLAIM, 7, LeaseExpired, calls);
  }
}
