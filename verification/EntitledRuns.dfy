/**
 Entitlement over whole runs of the service: what job creation chose is still
 in the row when a runner is granted a lease on it.
 */
module EntitledRuns {
  import opened Prelude
  import opened Tables
  import Stages
  import L = Leases
  import LI = LeaseInvariant
  import Queue
  import P = Pipeline
  import E = Entitlement
  import H = RunnerHeaders

  /** A job is created only with what create() chose. */
  ghost predicate Chooses(r: E.Registry, a: P.Act)
  {
    a.CreateJob? ==>
      exists c: E.Choice :: E.Chosen(r, c) && E.ValidStack(c.stack) &&
        a.stack == c.stack && a.quality == c.quality && a.model == Some(c.model) && a.transcribe == c.transcribe
  }

  ghost predicate AllChoose(r: E.Registry, acts: seq<(P.Act, int)>)
  {
    forall i :: 0 <= i < |acts| ==> Chooses(r, acts[i].0)
  }

  predicate SameChoice(j: Job, k: Job)
  {
    j.stack == k.stack && j.quality == k.quality && j.model == k.model && j.transcribe == k.transcribe
  }

  /** No job is new, and none has changed what was chosen for it. */
  ghost predicate ChoicesStay(db: Db, db': Db)
  {
    forall id :: id in db'.jobs ==> id in db.jobs && SameChoice(db.jobs[id], db'.jobs[id])
  }

  lemma MoveKeepsChoices(db: Db, id: JobId, status: Stages.Status, progress: int, message: Message, now: int)
    ensures ChoicesStay(db, Queue.AfterTransition(db, id, status, progress, message, now))
  {
    if id in db.jobs && !Stages.IsTerminal(db.jobs[id].status) {
      WriteKeepsChoices(db, id, Queue.Moved(db.jobs[id], status, Queue.Clamp(progress), message, now));
    }
  }

  lemma WriteKeepsChoices(db: Db, id: JobId, j: Job)
    requires id in db.jobs && SameChoice(db.jobs[id], j)
    ensures ChoicesStay(db, db.(jobs := db.jobs[id := j]))
  {
  }

  lemma PolicyKeepsChoices(db: Db, max: int, id: JobId, reason: string, now: int)
    ensures ChoicesStay(db, L.AfterFailure(db, max, id, reason, now))
  {
    var n := L.Failures(db.leases, id);
    MoveKeepsChoices(db, id, Stages.Failed, 0, GaveUp(n, L.Reason(reason)), now);
    MoveKeepsChoices(db, id, Stages.Separating, 28, Retrying(n, L.Reason(reason)), now);
  }

  lemma {:induction false} PoliciesKeepChoices(db: Db, max: int, jobs: seq<JobId>, now: int)
    ensures ChoicesStay(db, L.AfterPolicies(db, max, jobs, now))
  {
    if jobs != [] {
      PoliciesKeepChoices(db, max, jobs[..|jobs| - 1], now);
      PolicyKeepsChoices(L.AfterPolicies(db, max, jobs[..|jobs| - 1], now), max, jobs[|jobs| - 1], L.HEARTBEATS_STOPPED, now);
    }
  }

  lemma HeartbeatKeepsChoices(db: Db, l: LeaseId, runner: RunnerId, fraction: real, transcribing: bool, ttl: int, now: int)
    ensures ChoicesStay(db, L.AfterHeartbeat(db, l, runner, fraction, transcribing, ttl, now))
  {
  }

  lemma CompleteKeepsChoices(db: Db, l: LeaseId, e: Error, ttl: int, now: int)
    ensures ChoicesStay(db, L.AfterComplete(db, l, e, ttl, now))
  {
  }

  lemma FailKeepsChoices(db: Db, max: int, l: LeaseId, runner: RunnerId, reason: string, now: int)
    ensures ChoicesStay(db, L.AfterFail(db, max, l, runner, reason, now))
  {
    if L.LeaseError(db, l, runner) == NoError {
      PolicyKeepsChoices(L.Closed(db, l, LeaseFailed, now), max, db.leases[l].job, reason, now);
    }
  }

  lemma TableStepKeepsChoices(c: P.Setup, db: Db, a: P.Act, now: int)
    requires P.OnTables(a)
    ensures ChoicesStay(db, P.TableStep(c, db, a, now))
  {
    match a
    case Heartbeat(l, runner, fraction, transcribing) => HeartbeatKeepsChoices(db, l, runner, fraction, transcribing, c.ttl, now);
    case Complete(l, _, outcome) => CompleteKeepsChoices(db, l, outcome, c.ttl, now);
    case Fail(l, runner, reason) => FailKeepsChoices(db, c.max, l, runner, reason, now);
    case ExpireStale(ls) =>
      if forall l :: l in ls ==> l in db.leases {
        PoliciesKeepChoices(L.AfterExpiry(db, now), c.max, L.JobsOf(db, ls), now);
      }
    case _ =>
  }

  /** The steps of the workers move rows or take pending ones. */
  lemma WorkerStepKeepsChoices(c: P.Setup, s: P.Sys, a: P.Act, now: int)
    requires !P.OnTables(a) && !a.CreateJob?
    ensures ChoicesStay(s.db, P.Step(c, s, a, now).db)
  {
  }

  ghost predicate RowsChosen(r: E.Registry, db: Db) { forall id :: id in db.jobs ==> E.CreatedRow(r, db.jobs[id]) }

  lemma StayChosen(r: E.Registry, db: Db, db': Db)
    requires RowsChosen(r, db) && ChoicesStay(db, db')
    ensures RowsChosen(r, db')
  {
    forall id | id in db'.jobs
      ensures E.CreatedRow(r, db'.jobs[id])
    {
      assert E.CreatedRow(r, db.jobs[id]) && SameChoice(db.jobs[id], db'.jobs[id]);
    }
  }

  lemma CreateChooses(r: E.Registry, s: P.Sys, c: P.Setup, a: P.Act, now: int)
    requires RowsChosen(r, s.db) && a.CreateJob? && Chooses(r, a)
    ensures RowsChosen(r, P.Step(c, s, a, now).db)
  {
    var db' := P.Step(c, s, a, now).db;
    forall id | id in db'.jobs
      ensures E.CreatedRow(r, db'.jobs[id])
    {
      if id in s.db.jobs && db'.jobs[id] == s.db.jobs[id] {
        assert E.CreatedRow(r, s.db.jobs[id]);
      }
    }
  }

  /** In every reachable state every row is as create() wrote it, as far as it was chosen. */
  lemma {:induction false} RowsStayChosen(c: P.Setup, r: E.Registry, acts: seq<(P.Act, int)>)
    requires AllChoose(r, acts)
    ensures RowsChosen(r, P.Run(c, acts).db)
  {
    if acts != [] {
      var init, last := acts[..|acts| - 1], acts[|acts| - 1];
      assert forall i :: 0 <= i < |init| ==> init[i] == acts[i];
      RowsStayChosen(c, r, init);
      NextRowsChosen(c, r, P.Run(c, init), last.0, last.1);
    }
  }

  lemma NextRowsChosen(c: P.Setup, r: E.Registry, s: P.Sys, a: P.Act, now: int)
    requires RowsChosen(r, s.db) && Chooses(r, a)
    ensures RowsChosen(r, P.Step(c, s, a, now).db)
  {
    if a.CreateJob? {
      CreateChooses(r, s, c, a, now);
    } else {
      if P.OnTables(a) {
        TableStepKeepsChoices(c, s.db, a, now);
      } else {
        WorkerStepKeepsChoices(c, s, a, now);
      }
      StayChosen(r, s.db, P.Step(c, s, a, now).db);
    }
  }

  /** The entitlement from end to end: in any run of the service whose jobs were created by create(),
      whatever job the claim may offer a runner on the strength of its headers, the runner accepts
      the lease, and for a public job every checkpoint it loads is public. */
  lemma RunsGrantAcceptedLeases(c: P.Setup, r: E.Registry, acts: seq<(P.Act, int)>, id: JobId, a: E.Runner)
    requires E.Sound(r) && E.FromManifest(r) && E.HasPresets(r) && E.Built(r, a) && AllChoose(r, acts)
    requires a.recipes.Some? ==> forall i :: 0 <= i < |a.recipes.value| ==> H.Clean(a.recipes.value[i])
    requires L.Offered(P.Run(c, acts).db, id, c.max, H.Parsed(H.Features(a), H.Recipes(a), H.Stack(a)))
    ensures var j := P.Run(c, acts).db.jobs[id];
            E.Accepts(r, a, E.LeaseFor(r, j)) && (j.stack == E.PUBLIC ==> E.AllPublic(r, r.recipes[E.RecipeId(r, j)]))
  {
    RowsStayChosen(c, r, acts);
    H.EveryGrantedLeaseIsAccepted(r, P.Run(c, acts).db, id, c.max, a);
  }
}
