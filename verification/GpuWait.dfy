/**
 The watchdog that fails jobs no GPU runner picks up (worker.go, SweepGPUWait):
 a map of first sightings, brought up to date by every sweep.
 */
module GpuWait {
  import opened Prelude
  import opened Stages
  import opened Tables
  import L = Leases
  import Queue
  import Pipeline

  /** A row of WaitingJobs: a separating job and whether it has an active lease. */
  datatype Waiting = Waiting(id: JobId, leased: bool)

  type Since = map<JobId, int>

  // --- One sweep on values ----------------------------------------------------------

  ghost predicate Rows(list: seq<Waiting>)
  {
    forall i, k :: 0 <= i < k < |list| ==> list[i].id != list[k].id
  }

  predicate Unleased(list: seq<Waiting>, id: JobId) { Waiting(id, false) in list }

  /** Who waits now, and since which sweep. */
  ghost function Noted(since: Since, list: seq<Waiting>, now: int): Since
  {
    map w | w in list && !w.leased :: w.id := if w.id in since then since[w.id] else now
  }

  predicate Overdue(since: Since, w: Waiting, now: int, timeout: int)
  {
    !w.leased && w.id in since && now - since[w.id] > timeout
  }

  /** The jobs to fail, in the order of the list. */
  function Expired(since: Since, list: seq<Waiting>, now: int, timeout: int): seq<JobId>
  {
    if list == [] then []
    else
      var w := list[|list| - 1];
      Expired(since, list[..|list| - 1], now, timeout) + if Overdue(since, w, now, timeout) then [w.id] else []
  }

  lemma {:induction false} ExpiredMembers(since: Since, list: seq<Waiting>, now: int, timeout: int)
    ensures forall id :: id in Expired(since, list, now, timeout) <==>
              Unleased(list, id) && Overdue(since, Waiting(id, false), now, timeout)
  {
    if list != [] {
      ExpiredMembers(since, list[..|list| - 1], now, timeout);
      assert list == list[..|list| - 1] + [list[|list| - 1]];
    }
  }

  /** The sightings after the rows of a list, before those of unlisted jobs are dropped. */
  function Touched(since: Since, list: seq<Waiting>, now: int): Since
  {
    if list == [] then since
    else
      var w, t := list[|list| - 1], Touched(since, list[..|list| - 1], now);
      if w.leased then t - {w.id} else if w.id in t then t else t[w.id := now]
  }

  function Ids(list: seq<Waiting>): set<JobId> { set i | 0 <= i < |list| :: list[i].id }

  /** What the rows of a list leave in the map, id by id. */
  ghost predicate TouchedAs(since: Since, list: seq<Waiting>, now: int)
  {
    var t := Touched(since, list, now);
    forall id ::
      && (id in t <==> if id in Ids(list) then Unleased(list, id) else id in since)
      && (id in t ==> t[id] == if id in since then since[id] else now)
  }

  lemma {:induction false} TouchedAre(since: Since, list: seq<Waiting>, now: int)
    requires Rows(list)
    ensures TouchedAs(since, list, now)
  {
    if list != [] {
      var init, w := list[..|list| - 1], list[|list| - 1];
      TouchedAre(since, init, now);
      assert list == init + [w] && Ids(list) == Ids(init) + {w.id};
      assert w.id !in Ids(init);
      forall id
        ensures Unleased(list, id) <==> Unleased(init, id) || (id == w.id && !w.leased)
        ensures Unleased(init, id) ==> id in Ids(init)
      {
      }
    }
  }

  lemma OneMoreRow(since: Since, list: seq<Waiting>, now: int, i: nat)
    requires Rows(list) && i < |list|
    ensures list[..i + 1] == list[..i] + [list[i]] && list[..i + 1][..i] == list[..i]
    ensures Ids(list[..i + 1]) == Ids(list[..i]) + {list[i].id}
    ensures list[i].id in Touched(since, list[..i], now) <==> list[i].id in since
    ensures list[i].id in since ==> Touched(since, list[..i], now)[list[i].id] == since[list[i].id]
  {
    TouchedAre(since, list[..i], now);
    assert list[i].id !in Ids(list[..i]);
  }

  lemma TouchedIsNoted(since: Since, list: seq<Waiting>, now: int)
    requires Rows(list)
    ensures Noted(since, list, now) ==
            map id | id in Touched(since, list, now) && id in Ids(list) :: Touched(since, list, now)[id]
  {
    TouchedAre(since, list, now);
    forall id
      ensures id in Noted(since, list, now) <==> Unleased(list, id)
      ensures Unleased(list, id) ==> id in Ids(list)
    {
    }
  }

  /** The tables when the first n of ids have been failed. */
  function FailedAll(db: Db, ids: seq<JobId>, now: int): Db
  {
    if ids == [] then db
    else Queue.AfterTransition(FailedAll(db, ids[..|ids| - 1], now), ids[|ids| - 1], Failed, 0, NoRunnerInTime, now)
  }

  class Watchdog {
    const db: Database
    const timeout: int
    var waiting: Since

    constructor (db: Database, timeout: int)
      ensures this.db == db && this.timeout == timeout && waiting == map[]
    {
      this.db, this.timeout, waiting := db, timeout, map[];
    }

    /** Brings the sightings up to date with the rows of one query and picks those overdue. */
    method Note(list: seq<Waiting>, now: int) returns (expired: seq<JobId>)
      requires Rows(list)
      modifies this
      ensures waiting == Noted(old(waiting), list, now)
      ensures expired == Expired(old(waiting), list, now, timeout)
    {
      expired := [];
      ghost var before := waiting;
      var seen := {};
      for i := 0 to |list|
        invariant seen == Ids(list[..i])
        invariant expired == Expired(before, list[..i], now, timeout)
        invariant waiting == Touched(before, list[..i], now)
      {
        var w := list[i];
        OneMoreRow(before, list, now, i);
        seen := seen + {w.id};
        if w.leased {
          waiting := waiting - {w.id};
        } else if w.id !in waiting {
          waiting := waiting[w.id := now];
        } else if now - waiting[w.id] > timeout {
          expired := expired + [w.id];
        }
      }
      assert list[..|list|] == list;
      TouchedIsNoted(before, list, now);
      waiting := map id | id in waiting && id in seen :: waiting[id];
    }

    /** Fails the overdue jobs one by one; a job that ended meanwhile counts as done, and an error
        of the database ends the sweep, the rest staying overdue. */
    method FailAll(expired: seq<JobId>, fault: nat, now: int) returns (failed: seq<JobId>, e: Error)
      modifies this`waiting, db
      ensures failed == expired[..Min(fault, |expired|)] && (e == Fault <==> fault < |expired|) && (e == Fault || e == NoError)
      ensures waiting == old(waiting) - Elements(failed)
      ensures db.Snapshot() == FailedAll(old(db.Snapshot()), failed, now)
    {
      failed, e := [], NoError;
      var k := 0;
      while k < |expired|
        invariant k <= |expired| && k <= fault && failed == expired[..k] && e == NoError
        invariant waiting == old(waiting) - Elements(failed)
        invariant db.Snapshot() == FailedAll(old(db.Snapshot()), failed, now)
      {
        if k == fault {
          return failed, Fault;
        }
        var id := expired[k];
        var _ := Queue.Transition(db, id, Failed, 0, NoRunnerInTime, now);
        waiting := waiting - {id};
        ghost var done := failed;
        failed := failed + [id];
        assert failed[..|failed| - 1] == done;
        assert Elements(failed) == Elements(done) + {id};
        k := k + 1;
      }
    }
  }

  // --- Runs ---------------------------------------------------------------------------

  /** What one sweep saw, when, and which jobs it went on to fail. */
  datatype Sweep = Sweep(now: int, list: seq<Waiting>, failed: set<JobId>)

  /** `todo`: the overdue jobs the current sweep has not come to yet. */
  datatype World = World(db: Db, since: Since, todo: seq<JobId>, sweeps: seq<Sweep>)

  datatype Act =
    | Look(list: seq<Waiting>, now: int)
    | FailNext(now: int)
    | Break                                               // a database error ends the sweep
    | Others(db: Db)                                      // whatever everybody else does to the tables

  /** The rows WaitingJobs returns on the tables as they are. */
  ghost predicate Lists(db: Db, list: seq<Waiting>)
  {
    && Rows(list)
    && forall id, leased :: Waiting(id, leased) in list <==>
         id in db.jobs && db.jobs[id].status == Separating && leased == (L.ActiveOf(db.leases, id) != {})
  }

  ghost function Step(w: World, a: Act, timeout: int): World
  {
    match a
    case Look(list, now) =>
      if w.todo == [] && Lists(w.db, list)
      then World(w.db, Noted(w.since, list, now), Expired(w.since, list, now, timeout), w.sweeps + [Sweep(now, list, {})])
      else w
    case FailNext(now) => if w.todo == [] || w.sweeps == [] then w else AfterFail(w, now)
    case Break => w.(todo := [])
    case Others(db) => w.(db := db)
  }

  function AfterFail(w: World, now: int): World
    requires w.todo != [] && w.sweeps != []
  {
    var id := w.todo[0];
    World(Queue.AfterTransition(w.db, id, Failed, 0, NoRunnerInTime, now), w.since - {id}, w.todo[1..], FailedIn(w.sweeps, id))
  }

  /** The last sweep failed the job. */
  function FailedIn(sweeps: seq<Sweep>, id: JobId): seq<Sweep>
    requires sweeps != []
  {
    var last := sweeps[|sweeps| - 1];
    sweeps[..|sweeps| - 1] + [last.(failed := last.failed + {id})]
  }

  ghost function Run(db: Db, timeout: int, acts: seq<Act>): World
  {
    if acts == [] then World(db, map[], [], [])
    else Step(Run(db, timeout, acts[..|acts| - 1]), acts[|acts| - 1], timeout)
  }

  // --- The clock of a job ---------------------------------------------------------------

  /** A sweep that saw the job waiting and left it so. */
  predicate Waits(s: Sweep, id: JobId) { Unleased(s.list, id) && id !in s.failed }

  /** From sweep i on every sweep saw the job waiting, and the one before i did not. */
  ghost predicate Streak(sweeps: seq<Sweep>, id: JobId, i: int)
  {
    && 0 <= i < |sweeps|
    && (forall k :: i <= k < |sweeps| ==> Waits(sweeps[k], id))
    && (i > 0 ==> !Waits(sweeps[i - 1], id))
  }

  ghost predicate ClockOk(since: Since, sweeps: seq<Sweep>, id: JobId)
  {
    && (id in since <==> sweeps != [] && Waits(sweeps[|sweeps| - 1], id))
    && (id in since ==> exists i :: Streak(sweeps, id, i) && since[id] == sweeps[i].now)
  }

  ghost predicate Inv(w: World) { forall id :: ClockOk(w.since, w.sweeps, id) }

  lemma LookKeepsClock(since: Since, sweeps: seq<Sweep>, list: seq<Waiting>, now: int, id: JobId)
    requires ClockOk(since, sweeps, id)
    ensures ClockOk(Noted(since, list, now), sweeps + [Sweep(now, list, {})], id)
  {
    var next := sweeps + [Sweep(now, list, {})];
    assert Waits(next[|sweeps|], id) == Unleased(list, id);
    if Unleased(list, id) {
      assert Noted(since, list, now)[id] == if id in since then since[id] else now;
      if id in since {
        var i :| Streak(sweeps, id, i) && since[id] == sweeps[i].now;
        assert Streak(next, id, i);
      } else {
        assert Streak(next, id, |sweeps|);
      }
    }
  }

  lemma FailKeepsClock(since: Since, sweeps: seq<Sweep>, failed: JobId, id: JobId)
    requires sweeps != [] && ClockOk(since, sweeps, id)
    ensures ClockOk(since - {failed}, FailedIn(sweeps, failed), id)
  {
    var next, n := FailedIn(sweeps, failed), |sweeps| - 1;
    assert next[..n] == sweeps[..n] && |next| == n + 1;
    assert Waits(next[n], id) <==> Waits(sweeps[n], id) && id != failed;
    if id in since && id != failed {
      var i :| Streak(sweeps, id, i) && since[id] == sweeps[i].now;
      StreakGoesOn(sweeps, next, id, i);
      assert next[i].now == sweeps[i].now;
    }
  }

  /** A streak does not mind the last sweep being written anew, if the job still waits. */
  lemma StreakGoesOn(sweeps: seq<Sweep>, next: seq<Sweep>, id: JobId, i: int)
    requires Streak(sweeps, id, i) && |next| == |sweeps| && next[..|next| - 1] == sweeps[..|next| - 1]
    requires Waits(next[|next| - 1], id)
    ensures Streak(next, id, i)
  {
    var n := |next| - 1;
    assert forall k :: 0 <= k < n ==> next[k] == next[..n][k] && sweeps[k] == sweeps[..n][k];
  }

  lemma {:induction false} EveryRunKeeps(db: Db, timeout: int, acts: seq<Act>)
    ensures Inv(Run(db, timeout, acts))
  {
    if acts != [] {
      EveryRunKeeps(db, timeout, acts[..|acts| - 1]);
      var w := Run(db, timeout, acts[..|acts| - 1]);
      forall id
        ensures ClockOk(Run(db, timeout, acts).since, Run(db, timeout, acts).sweeps, id)
      {
        match acts[|acts| - 1]
        case Look(list, now) => LookKeepsClock(w.since, w.sweeps, list, now, id);
        case FailNext(now) => if w.todo != [] && w.sweeps != [] { FailKeepsClock(w.since, w.sweeps, w.todo[0], id); }
        case _ =>
      }
    }
  }

  lemma StreakIsUnique(sweeps: seq<Sweep>, id: JobId, i: int, k: int)
    requires Streak(sweeps, id, i) && Streak(sweeps, id, k)
    ensures i == k
  {
  }

  /** A sweep marks a job for failing exactly when it and every earlier sweep, back to one more
      than the timeout ago, saw the job waiting without a lease. */
  lemma FailsExactlyAfterTheWait(db: Db, timeout: int, acts: seq<Act>, list: seq<Waiting>, now: int, id: JobId)
    requires var w := Run(db, timeout, acts); w.todo == [] && Lists(w.db, list)
    ensures var w := Run(db, timeout, acts); var w' := Step(w, Look(list, now), timeout);
            id in w'.todo <==>
            exists i :: Streak(w'.sweeps, id, i) && i < |w.sweeps| && now - w'.sweeps[i].now > timeout
  {
    var w := Run(db, timeout, acts);
    var w' := Step(w, Look(list, now), timeout);
    EveryRunKeeps(db, timeout, acts);
    assert ClockOk(w.since, w.sweeps, id);
    ExpiredMembers(w.since, list, now, timeout);
    assert Waits(w'.sweeps[|w.sweeps|], id) == Unleased(list, id);
    assert forall k :: 0 <= k < |w.sweeps| ==> w'.sweeps[k] == w.sweeps[k];
    assert w.sweeps != [] ==> w'.sweeps[|w.sweeps| - 1] == w.sweeps[|w.sweeps| - 1];
    if id in w.since {
      var i :| Streak(w.sweeps, id, i) && w.since[id] == w.sweeps[i].now;
      if Unleased(list, id) {
        assert Streak(w'.sweeps, id, i);
        forall k | Streak(w'.sweeps, id, k)
          ensures k == i
        {
          StreakIsUnique(w'.sweeps, id, i, k);
        }
      }
    }
  }

  /** A sweep that sees a lease stops the clock: whatever comes before it no longer counts. */
  lemma SeenLeasesRestartTheClock(db: Db, timeout: int, acts: seq<Act>, id: JobId, seen: nat)
    requires var w := Run(db, timeout, acts); seen < |w.sweeps| && !Unleased(w.sweeps[seen].list, id)
    ensures var w := Run(db, timeout, acts);
            id in w.since ==> exists i :: seen < i < |w.sweeps| && w.since[id] == w.sweeps[i].now
  {
    var w := Run(db, timeout, acts);
    EveryRunKeeps(db, timeout, acts);
    assert ClockOk(w.since, w.sweeps, id);
    if id in w.since {
      var i :| Streak(w.sweeps, id, i) && w.since[id] == w.sweeps[i].now;
      assert i <= seen ==> Waits(w.sweeps[seen], id);
    }
  }

  /** Claiming and failing a job's lease leaves what the query returns as it was. */
  lemma ClaimThenFail(db: Db, id: JobId, runner: RunnerId, ttl: int, max: int, reason: string, t: int)
    requires (forall l :: l in db.leases ==> l < db.nextLease)
    requires id in db.jobs && db.jobs[id].status == Separating && L.ActiveOf(db.leases, id) == {}
    requires L.Failures(db.leases, id) + 1 < max
    ensures var claimed := L.AfterClaim(db, id, runner, ttl, t);
            var failed := L.AfterFail(claimed, max, db.nextLease, runner, reason, t);
            && L.ActiveOf(claimed.leases, id) == {db.nextLease}
            && (forall k :: L.ActiveOf(failed.leases, k) == L.ActiveOf(db.leases, k))
            && failed.jobs.Keys == db.jobs.Keys && forall k :: k in db.jobs ==> failed.jobs[k].status == db.jobs[k].status
  {
    var claimed, n := L.AfterClaim(db, id, runner, ttl, t), db.nextLease;
    assert forall l :: l in L.ActiveOf(claimed.leases, id) <==> l == n || l in L.ActiveOf(db.leases, id);
    var closed := L.Closed(claimed, n, LeaseFailed, t);
    assert L.LeaseError(claimed, n, runner) == NoError;
    assert L.DeadOf(closed.leases, id) == L.DeadOf(db.leases, id) + {n};
    forall k
      ensures L.ActiveOf(closed.leases, k) == L.ActiveOf(db.leases, k)
    {
      assert forall l :: l in L.ActiveOf(closed.leases, k) <==> l in L.ActiveOf(db.leases, k);
    }
  }

  /** A lease that comes and goes between two sweeps does not restart it, although the comment
      says that even a failed one does: the next sweep sees the same rows. */
  lemma ShortLeasesAreNotSeen(w: World, timeout: int, id: JobId, runner: RunnerId, ttl: int, max: int, reason: string,
                              list: seq<Waiting>, t: int, now: int)
    requires w.todo == [] && Lists(w.db, list) && id in w.since && now - w.since[id] > timeout
    requires (forall l :: l in w.db.leases ==> l < w.db.nextLease)
    requires Unleased(list, id) && L.Failures(w.db.leases, id) + 1 < max
    ensures var claimed := L.AfterClaim(w.db, id, runner, ttl, t);
            var failed := L.AfterFail(claimed, max, w.db.nextLease, runner, reason, t);
            && L.ActiveOf(claimed.leases, id) == {w.db.nextLease}
            && Lists(failed, list)
            && id in Step(w.(db := failed), Look(list, now), timeout).todo
  {
    assert Waiting(id, false) in list;
    ClaimThenFail(w.db, id, runner, ttl, max, reason, t);
    ExpiredMembers(w.since, list, now, timeout);
  }

  /** The failing itself looks at nothing but whether the job has ended: a job that a runner took
      after the query, or that has even been handed on, is failed all the same. */
  lemma LateFailuresSpareOnlyEndedJobs(w: World, now: int, timeout: int)
    requires w.todo != [] && w.sweeps != [] && w.todo[0] in w.db.jobs
    ensures var id := w.todo[0]; var w' := Step(w, FailNext(now), timeout);
            && w'.db.leases == w.db.leases
            && (if IsTerminal(w.db.jobs[id].status) then w'.db == w.db
                else w'.db.jobs[id].status == Failed && w'.db.jobs[id].error == Some(NoRunnerInTime))
  {
  }

  /** What that does to a runner: it leased the job after the query, the sweep fails the job under its
      active lease, and its next heartbeat is told that the job is gone and closes the lease. */
  lemma LeasedJobIsFailedUnderItsRunner(w: World, id: JobId, runner: RunnerId, caps: L.Capabilities, max: int, ttl: int,
                                        t: int, now: int, timeout: int, fraction: real, transcribing: bool, later: int)
    requires w.todo != [] && w.todo[0] == id && w.sweeps != [] && L.Offered(w.db, id, max, caps)
    ensures var l := w.db.nextLease;
            var failed := Step(w.(db := L.AfterClaim(w.db, id, runner, ttl, t)), FailNext(now), timeout).db;
            var told := L.AfterHeartbeat(failed, l, runner, fraction, transcribing, ttl, later);
            && l in failed.leases && failed.leases[l].state == LeaseActive && failed.jobs[id].status == Failed
            && L.HeartbeatError(failed, l, runner) == JobGone
            && told.leases[l].state == LeaseFailed && told.jobs == failed.jobs
  {
  }

  /** Every such failing is a step of the whole service, so all its invariants hold across it. */
  lemma FailingIsAServiceStep(c: Pipeline.Setup, s: Pipeline.Sys, w: World, now: int, timeout: int)
    requires w.db == s.db && w.todo != [] && w.sweeps != []
    ensures Step(w, FailNext(now), timeout).db == Pipeline.Step(c, s, Pipeline.FailJob(w.todo[0], NoRunnerInTime), now).db
  {
  }
}
