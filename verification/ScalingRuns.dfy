/**
 Runs of the scaler: every tick may stop anywhere, calls and saves may fail,
 instances may die and strangers may appear at any time.
 */
module ScalingRuns {
  import opened Prelude
  import opened ScalerPolicy
  import opened Scaling

  /** How far a tick has come. */
  datatype Pc =
    | Ready
    | Sorting(listing: seq<Listed>, i: nat, ours: seq<Listed>)
    | Orphans(listing: seq<Listed>, ours: seq<Listed>, k: nat)
    | Observed(listing: seq<Listed>)
    | Acting(action: Action, public: bool)

  /** A decision that was made: whether it kept an instance, and the fresh load it saw. */
  datatype Entry = Entry(now: int, kept: bool, load: Option<Load>, timer: Option<int>)

  /** `missed`: the orphans this tick, holding nothing, failed to destroy. `from` and `fileFrom`: the
      decisions that started the timer in memory and the one in the file. */
  datatype System = System(w: World, pc: Pc, missed: set<Id>, log: seq<Entry>, from: nat, fileFrom: nat)

  datatype Act =
    | List(listing: seq<Listed>)
    | Sort(now: int, ok: bool)
    | Choose(now: int, saved: bool)
    | Orphan(ok: bool)
    | Track(saved: bool)
    | Judge(now: int, load: Option<Load>, credit: Option<real>, saved: bool)
    | Carry(rent: RentOutcome, destroyed: bool, now: int, saved: bool)
    | Crash
    | Dies(id: Id)
    | Stranger

  datatype Setup = Setup(limits: Limits, publicImage: bool)

  function SeenLabelled(listing: seq<Listed>): set<Id>
  {
    set i | 0 <= i < |listing| && listing[i].ours :: listing[i].id
  }

  /** The file was written: its timer is the one in memory. */
  function Filed(s: System, written: bool): System { if written then s.(fileFrom := s.from) else s }

  function Step(c: Setup, s: System, a: Act): System
  {
    match a
    case List(listing) =>
      if s.pc != Ready then s
      else
        s.(w := s.w.(cloud := s.w.cloud.(mine := s.w.cloud.mine + SeenLabelled(listing))),
           pc := Sorting(listing, 0, []), missed := {})
    case Sort(now, ok) =>
      if !s.pc.Sorting? || s.pc.i >= |s.pc.listing| then s
      else
        var l := s.pc.listing[s.pc.i];
        s.(w := AgainOne(s.w, l, now, ok), pc := Sorting(s.pc.listing, s.pc.i + 1, Sorted(s.w.mem, s.pc.ours, l, now)))
    case Choose(now, saved) =>
      if !s.pc.Sorting? || s.pc.i < |s.pc.listing| then s
      else if s.w.mem.instance.None? && |s.pc.ours| == 1
      then Filed(s.(w := Adopted(s.w, s.pc.ours[0], now, saved), pc := Observed(s.pc.listing)), saved)
      else s.(pc := Orphans(s.pc.listing, s.pc.ours, 0))
    case Orphan(ok) =>
      if !s.pc.Orphans? then s
      else if s.pc.k >= |s.pc.ours| then s.(pc := Observed(s.pc.listing))
      else
        s.(w := OrphanOne(s.w, s.pc.ours[s.pc.k], ok), pc := s.pc.(k := s.pc.k + 1),
           missed := if !ok && s.w.mem.instance.None? then s.missed + {s.pc.ours[s.pc.k].id} else s.missed)
    case Track(saved) =>
      if s.pc.Observed? && s.w.mem.instance.Some? then Filed(s.(w := Saved(s.w, saved)), saved) else s
    case Judge(now, load, credit, saved) =>
      if !s.pc.Observed? then s
      else
        var d := Decide(Observe(s.w, s.pc.listing, now, load, credit), s.w.mem.idleSince, c.limits);
        var s' := s.(w := AfterDecide(s.w, d, saved),
                     pc := Acting(d.action, c.publicImage && (load.None? || load.value.internal == 0)),
                     log := s.log + [Entry(now, s.w.mem.instance.Some? && d.action == Keep, load, d.idleSince)],
                     from := if d.reason == TimerStarted then |s.log| else s.from);
        Filed(s', saved && d.idleSince != s.w.mem.idleSince)
    case Carry(rent, destroyed, now, saved) =>
      if !s.pc.Acting? then s
      else
        Filed(s.(w := Acted(s.w, s.pc.action, rent, destroyed, s.pc.public, now, saved), pc := Ready),
              saved && (s.pc.action == Rent || (s.w.mem.instance.Some? && (s.pc.action == Forget || (s.pc.action == Destroy && destroyed)))))
    case Crash => s.(w := s.w.(mem := s.w.disk), pc := Ready, from := s.fileFrom)
    case Dies(id) => s.(w := s.w.(cloud := s.w.cloud.(alive := s.w.cloud.alive - {id})))
    case Stranger => s.(w := s.w.(cloud := Created(s.w.cloud, false)))
  }

  /** What each listing may be: a superset of the live labelled instances, or exactly those. */
  ghost predicate Allowed(s: System, a: Act)
  {
    a.List? ==> Truthful(s.w.cloud, a.listing)
  }

  ghost predicate Exact(c: Cloud, listing: seq<Listed>)
  {
    && Truthful(c, listing)
    && (forall i :: 0 <= i < |listing| && listing[i].ours ==> listing[i].id in c.alive)
    && (forall i, j :: 0 <= i < j < |listing| ==> listing[i].id != listing[j].id)
  }

  const EMPTY_CLOUD := Cloud(map[], {}, 0, {}, {})

  function Run(c: Setup, acts: seq<Act>): System
  {
    if acts == [] then System(World(EMPTY_CLOUD, EMPTY, EMPTY), Ready, {}, [], 0, 0)
    else Step(c, Run(c, acts[..|acts| - 1]), acts[|acts| - 1])
  }

  ghost predicate AllAllowed(c: Setup, acts: seq<Act>)
  {
    acts == [] || (AllAllowed(c, acts[..|acts| - 1]) && Allowed(Run(c, acts[..|acts| - 1]), acts[|acts| - 1]))
  }

  // --- What every run keeps -------------------------------------------------------------

  ghost predicate StateOk(c: Cloud, m: State)
  {
    && (m.instance.Some? ==> m.instance.value.id in c.mine)
    && forall i :: 0 <= i < |m.history| ==> m.history[i].id in c.born && m.history[i].id !in c.alive
  }

  ghost predicate ListingOk(c: Cloud, listing: seq<Listed>)
  {
    forall i :: 0 <= i < |listing| ==>
      && listing[i].id in c.born && c.born[listing[i].id] == listing[i].ours
      && (listing[i].ours ==> listing[i].id in c.mine)
  }

  /** Every labelled instance alive is still to be looked at. */
  ghost predicate Covered(c: Cloud, rest: seq<Listed>, ours: seq<Listed>)
  {
    forall id :: OursAlive(c, id) ==> Names(rest, id) || Names(ours, id)
  }

  /** Whatever is alive of ours, this tick failed to destroy. */
  ghost predicate OnlyMissed(s: System) { forall id :: OursAlive(s.w.cloud, id) ==> id in s.missed }

  ghost predicate AllNamed(c: Cloud, listing: seq<Listed>) { forall id :: OursAlive(c, id) ==> Names(listing, id) }

  ghost predicate AllOurs(ours: seq<Listed>) { forall k :: 0 <= k < |ours| ==> ours[k].ours }

  ghost predicate PcOk(s: System)
  {
    match s.pc
    case Ready => true
    case Sorting(listing, i, ours) =>
      && i <= |listing| && ListingOk(s.w.cloud, listing) && AllNamed(s.w.cloud, listing) && s.missed == {}
      && ListingOk(s.w.cloud, ours) && AllOurs(ours) && Covered(s.w.cloud, listing[i..], ours)
    case Orphans(listing, ours, k) =>
      && k <= |ours| && AllNamed(s.w.cloud, listing) && ListingOk(s.w.cloud, ours) && AllOurs(ours)
      && (s.w.mem.instance.None? ==> forall id :: OursAlive(s.w.cloud, id) ==> Names(ours[k..], id) || id in s.missed)
    case Observed(listing) => AllNamed(s.w.cloud, listing) && (s.w.mem.instance.None? ==> OnlyMissed(s))
    case Acting(action, _) =>
      && (action == Rent ==> OnlyMissed(s))
      && (action == Forget && s.w.mem.instance.Some? ==> s.w.mem.instance.value.id !in s.w.cloud.alive)
  }

  ghost predicate Inv(s: System)
  {
    CloudOk(s.w.cloud) && StateOk(s.w.cloud, s.w.mem) && StateOk(s.w.cloud, s.w.disk) && PcOk(s)
  }

  // --- The cloud only moves on ------------------------------------------------------------

  /** Labels stay, the dead stay dead, and what we know stays known. */
  ghost predicate Later(c: Cloud, c': Cloud)
  {
    && (forall id :: id in c.born ==> id in c'.born && c'.born[id] == c.born[id])
    && (forall id :: id in c'.alive && id in c.born ==> id in c.alive)
    && c.mine <= c'.mine
  }

  /** The step that creates an instance, whether or not the call reports success. */
  predicate Rents(s: System, a: Act)
  {
    a.Carry? && s.pc.Acting? && s.pc.action == Rent && (a.rent == Rented || a.rent == CreateFailed(true))
  }

  /** No labelled instance came up. */
  ghost predicate NoneNew(c: Cloud, c': Cloud) { forall id :: OursAlive(c', id) ==> OursAlive(c, id) }

  lemma StateStays(c: Cloud, c': Cloud, m: State)
    requires StateOk(c, m) && Later(c, c')
    ensures StateOk(c', m)
  {
  }

  lemma PcStays(s: System, s': System)
    requires PcOk(s) && Later(s.w.cloud, s'.w.cloud) && NoneNew(s.w.cloud, s'.w.cloud)
    requires s'.pc == s.pc && s'.missed == s.missed && s'.w.mem.instance == s.w.mem.instance
    requires CloudOk(s.w.cloud) && StateOk(s.w.cloud, s.w.mem)
    ensures PcOk(s')
  {
  }

  lemma CloudStep(c: Setup, s: System, a: Act)
    requires Inv(s) && Allowed(s, a)
    ensures CloudOk(Step(c, s, a).w.cloud) && Later(s.w.cloud, Step(c, s, a).w.cloud)
    ensures !Rents(s, a) ==> NoneNew(s.w.cloud, Step(c, s, a).w.cloud)
  {
    if a.Carry? && s.pc.Acting? {
      CarryCloud(c, s, a);
    }
  }

  lemma CarryCloud(c: Setup, s: System, a: Act)
    requires Inv(s) && a.Carry? && s.pc.Acting?
    ensures CloudOk(Step(c, s, a).w.cloud) && Later(s.w.cloud, Step(c, s, a).w.cloud)
    ensures !Rents(s, a) ==> NoneNew(s.w.cloud, Step(c, s, a).w.cloud)
  {
    assert Step(c, s, a).w.cloud ==
           if Rents(s, a) then Created(s.w.cloud, true)
           else if s.pc.action == Destroy && s.w.mem.instance.Some? then DestroyCalled(s.w.cloud, s.w.mem.instance.value.id, a.destroyed)
           else s.w.cloud;
  }

  lemma SavedStates(w: World, ok: bool)
    requires StateOk(w.cloud, w.mem) && StateOk(w.cloud, w.disk)
    ensures StateOk(w.cloud, Saved(w, ok).mem) && StateOk(w.cloud, Saved(w, ok).disk)
  {
  }

  lemma RentStates(w: World, outcome: RentOutcome, public: bool, now: int, saved: bool)
    requires CloudOk(w.cloud) && StateOk(w.cloud, w.mem) && StateOk(w.cloud, w.disk)
    ensures var w' := AfterRent(w, outcome, public, now, saved); StateOk(w'.cloud, w'.mem) && StateOk(w'.cloud, w'.disk)
  {
    var cloud := if outcome == NoOffer || outcome == CreateFailed(false) then w.cloud else Created(w.cloud, true);
    StateStays(w.cloud, cloud, w.mem);
    StateStays(w.cloud, cloud, w.disk);
    var mem := if outcome.Rented?
               then w.mem.(instance := Some(Held(w.cloud.next, now, public)), idleSince := None, lastRentFailure := None)
               else w.mem.(lastRentFailure := Some(now));
    SavedStates(World(cloud, mem, w.disk), saved);
  }

  lemma CloseStates(w: World, now: int, saved: bool)
    requires CloudOk(w.cloud) && StateOk(w.cloud, w.mem) && StateOk(w.cloud, w.disk)
    requires w.mem.instance.Some? ==> w.mem.instance.value.id !in w.cloud.alive
    ensures var w' := Closed(w, now, saved); StateOk(w'.cloud, w'.mem) && StateOk(w'.cloud, w'.disk)
  {
    if w.mem.instance.Some? {
      SavedStates(w.(mem := w.mem.(history := w.mem.history + [Record(w.mem.instance.value.id, now)],
                                   instance := None, idleSince := None)), saved);
    }
  }

  lemma DestroyStates(w: World, ok: bool, now: int, saved: bool)
    requires CloudOk(w.cloud) && StateOk(w.cloud, w.mem) && StateOk(w.cloud, w.disk)
    ensures var w' := AfterDestroy(w, ok, now, saved); StateOk(w'.cloud, w'.mem) && StateOk(w'.cloud, w'.disk)
  {
    if w.mem.instance.Some? {
      var called := w.(cloud := DestroyCalled(w.cloud, w.mem.instance.value.id, ok));
      StateStays(w.cloud, called.cloud, w.mem);
      StateStays(w.cloud, called.cloud, w.disk);
      if ok {
        CloseStates(called, now, saved);
      }
    }
  }

  lemma StateStep(c: Setup, s: System, a: Act)
    requires Inv(s) && Allowed(s, a)
    ensures StateOk(Step(c, s, a).w.cloud, Step(c, s, a).w.mem) && StateOk(Step(c, s, a).w.cloud, Step(c, s, a).w.disk)
  {
    match a
    case Choose(now, saved) =>
      if s.pc.Sorting? && s.pc.i >= |s.pc.listing| && s.w.mem.instance.None? && |s.pc.ours| == 1 {
        var l := s.pc.ours[0];
        var rented := if l.started.Some? then l.started.value else now;
        SavedStates(s.w.(mem := s.w.mem.(instance := Some(Held(l.id, rented, false)))), saved);
      }
    case Track(saved) => SavedStates(s.w, saved);
    case Judge(now, load, credit, saved) =>
      if s.pc.Observed? {
        var d := Decide(Observe(s.w, s.pc.listing, now, load, credit), s.w.mem.idleSince, c.limits);
        SavedStates(s.w.(mem := s.w.mem.(idleSince := d.idleSince)), saved);
      }
    case Carry(rent, destroyed, now, saved) =>
      if s.pc.Acting? {
        match s.pc.action
        case Keep =>
        case Rent => RentStates(s.w, rent, s.pc.public, now, saved);
        case Destroy => DestroyStates(s.w, destroyed, now, saved);
        case Forget => CloseStates(s.w, now, saved);
      }
    case _ => KnownStep(c, s, a);
  }

  /** The steps that leave both states as they are. */
  lemma KnownStep(c: Setup, s: System, a: Act)
    requires Inv(s) && Allowed(s, a) && !a.Choose? && !a.Track? && !a.Judge? && !a.Carry?
    ensures StateOk(Step(c, s, a).w.cloud, Step(c, s, a).w.mem) && StateOk(Step(c, s, a).w.cloud, Step(c, s, a).w.disk)
  {
    CloudStep(c, s, a);
    StateStays(s.w.cloud, Step(c, s, a).w.cloud, s.w.mem);
    StateStays(s.w.cloud, Step(c, s, a).w.cloud, s.w.disk);
  }

  // --- Where a tick stands --------------------------------------------------------------------

  /** The line just looked at is kept, or its instance is dead. */
  lemma SortPc(c: Setup, s: System, now: int, ok: bool)
    requires Inv(s) && s.pc.Sorting? && s.pc.i < |s.pc.listing|
    ensures PcOk(Step(c, s, Sort(now, ok)))
  {
    var s' := Step(c, s, Sort(now, ok));
    var listing, i := s.pc.listing, s.pc.i;
    var ours' := s'.pc.ours;
    forall id | OursAlive(s'.w.cloud, id)
      ensures Names(listing[i + 1..], id) || Names(ours', id)
    {
      assert OursAlive(s.w.cloud, id);
      if Names(s.pc.ours, id) {
        var k :| 0 <= k < |s.pc.ours| && s.pc.ours[k].id == id;
        assert ours'[k].id == id;
      } else if listing[i].id == id {
        assert ours'[|s.pc.ours|].id == id;
      } else {
        var k :| 0 <= k < |listing[i..]| && listing[i..][k].id == id;
        assert listing[i + 1..][k - 1].id == id;
      }
    }
  }

  lemma OrphanPc(c: Setup, s: System, ok: bool)
    requires Inv(s) && s.pc.Orphans? && s.pc.k < |s.pc.ours|
    ensures PcOk(Step(c, s, Orphan(ok)))
  {
    var s' := Step(c, s, Orphan(ok));
    var ours, k := s.pc.ours, s.pc.k;
    if s.w.mem.instance.None? {
      forall id | OursAlive(s'.w.cloud, id)
        ensures Names(ours[k + 1..], id) || id in s'.missed
      {
        assert OursAlive(s.w.cloud, id);
        if id !in s'.missed {
          assert Names(ours[k..], id) && id != ours[k].id;
          var j :| 0 <= j < |ours[k..]| && ours[k..][j].id == id;
          assert ours[k + 1..][j - 1].id == id;
        }
      }
    }
  }

  lemma {:induction false} NotRunningIsNotNamed(listing: seq<Listed>, id: Id)
    ensures RunningIn(listing, id).None? <==> !Names(listing, id)
  {
    if listing != [] {
      var n := |listing| - 1;
      NotRunningIsNotNamed(listing[..n], id);
      if Names(listing, id) && listing[n].id != id {
        var k :| 0 <= k < |listing| && listing[k].id == id;
        assert listing[..n][k].id == id;
      }
    }
  }

  lemma JudgePc(c: Setup, s: System, now: int, load: Option<Load>, credit: Option<real>, saved: bool)
    requires Inv(s) && s.pc.Observed?
    ensures PcOk(Step(c, s, Judge(now, load, credit, saved)))
  {
    if s.w.mem.instance.Some? {
      NotRunningIsNotNamed(s.pc.listing, s.w.mem.instance.value.id);
    }
  }

  lemma ChoosePc(c: Setup, s: System, now: int, saved: bool)
    requires Inv(s) && s.pc.Sorting? && s.pc.i >= |s.pc.listing|
    ensures PcOk(Step(c, s, Choose(now, saved)))
  {
    assert s.pc.listing[s.pc.i..] == [] && s.pc.ours[0..] == s.pc.ours;
  }

  lemma PcStep(c: Setup, s: System, a: Act)
    requires Inv(s) && Allowed(s, a)
    ensures PcOk(Step(c, s, a))
  {
    match a
    case List(listing) =>
      if s.pc == Ready {
        assert listing[0..] == listing;
      }
    case Sort(now, ok) =>
      if s.pc.Sorting? && s.pc.i < |s.pc.listing| {
        SortPc(c, s, now, ok);
      }
    case Choose(now, saved) =>
      if s.pc.Sorting? && s.pc.i >= |s.pc.listing| {
        ChoosePc(c, s, now, saved);
      }
    case Orphan(ok) =>
      if s.pc.Orphans? && s.pc.k < |s.pc.ours| {
        OrphanPc(c, s, ok);
      }
    case Judge(now, load, credit, saved) =>
      if s.pc.Observed? {
        JudgePc(c, s, now, load, credit, saved);
      }
    case Carry(_, _, _, _) =>
    case Crash =>
    case _ =>
      CloudStep(c, s, a);
      PcStays(s, Step(c, s, a));
  }

  lemma StepKeeps(c: Setup, s: System, a: Act)
    requires Inv(s) && Allowed(s, a)
    ensures Inv(Step(c, s, a))
  {
    CloudStep(c, s, a);
    StateStep(c, s, a);
    PcStep(c, s, a);
  }

  lemma {:induction false} EveryRunKeeps(c: Setup, acts: seq<Act>)
    requires AllAllowed(c, acts)
    ensures Inv(Run(c, acts))
  {
    if acts != [] {
      EveryRunKeeps(c, acts[..|acts| - 1]);
      StepKeeps(c, Run(c, acts[..|acts| - 1]), acts[|acts| - 1]);
    }
  }

  // --- At most one instance ----------------------------------------------------------------------

  /** An orphan this tick failed to destroy has not died since. */
  ghost predicate StillThere(s: System) { exists id :: id in s.missed && OursAlive(s.w.cloud, id) }

  /** The single way to a second instance: a create in a tick that failed to destroy an orphan which
      is still alive. A failed destroy of one already dead does no harm. */
  lemma SecondInstanceExactlyWhen(c: Setup, s: System, a: Act)
    requires Inv(s) && Allowed(s, a) && AtMostOne(s.w.cloud)
    ensures AtMostOne(Step(c, s, a).w.cloud) <==> !(Rents(s, a) && StillThere(s))
  {
    CloudStep(c, s, a);
    var c', next := Step(c, s, a).w.cloud, s.w.cloud.next;
    if Rents(s, a) {
      assert c' == Created(s.w.cloud, true);
      assert OursAlive(c', next);
      assert forall id :: id != next ==> OursAlive(c', id) == OursAlive(s.w.cloud, id);
      assert forall id :: OursAlive(s.w.cloud, id) ==> id != next && id in s.missed;
    }
  }

  /** No create in a tick whose missed orphan is still alive. */
  ghost predicate AllCareful(c: Setup, acts: seq<Act>)
  {
    acts == [] ||
    (AllCareful(c, acts[..|acts| - 1]) &&
     !(Rents(Run(c, acts[..|acts| - 1]), acts[|acts| - 1]) && StillThere(Run(c, acts[..|acts| - 1]))))
  }

  /** At most one labelled instance is alive in every state on the way. */
  ghost predicate AlwaysOne(c: Setup, acts: seq<Act>)
  {
    AtMostOne(Run(c, acts).w.cloud) && (acts == [] || AlwaysOne(c, acts[..|acts| - 1]))
  }

  /** Over any run of ticks, crashes, failed calls and failed saves, with listings that may still
      name dead instances, there are never two exactly when no create was careless. */
  lemma {:induction false} NeverTwoInstances(c: Setup, acts: seq<Act>)
    requires AllAllowed(c, acts)
    ensures AlwaysOne(c, acts) <==> AllCareful(c, acts)
  {
    if acts != [] {
      var init := acts[..|acts| - 1];
      NeverTwoInstances(c, init);
      if AlwaysOne(c, init) {
        EveryRunKeeps(c, init);
        SecondInstanceExactlyWhen(c, Run(c, init), acts[|acts| - 1]);
      }
    }
  }

  ghost predicate AllExact(c: Setup, acts: seq<Act>)
  {
    acts == [] || (AllExact(c, acts[..|acts| - 1]) &&
                   (acts[|acts| - 1].List? ==> Exact(Run(c, acts[..|acts| - 1]).w.cloud, acts[|acts| - 1].listing)))
  }

  /** At most one line of an exact listing is ours, so a tick that holds nothing finds no orphans. */
  ghost predicate NoOrphans(s: System)
  {
    && s.missed == {}
    && match s.pc
       case Sorting(listing, i, ours) =>
         && i <= |listing|
         && (forall j, k :: 0 <= j < |listing| && 0 <= k < |listing| && listing[j].ours && listing[k].ours ==> j == k)
         && |ours| <= 1 && (ours != [] ==> forall k :: i <= k < |listing| ==> !listing[k].ours)
       case Orphans(_, ours, _) => s.w.mem.instance.None? ==> ours == []
       case _ => true
  }

  lemma StepFindsNoOrphans(c: Setup, s: System, a: Act)
    requires NoOrphans(s) && AtMostOne(s.w.cloud) && (a.List? ==> Exact(s.w.cloud, a.listing))
    ensures NoOrphans(Step(c, s, a))
  {
    if a.List? {
      forall j, k | 0 <= j < |a.listing| && 0 <= k < |a.listing| && a.listing[j].ours && a.listing[k].ours
        ensures j == k
      {
        assert OursAlive(s.w.cloud, a.listing[j].id) && OursAlive(s.w.cloud, a.listing[k].id);
      }
    }
  }

  /** With exact listings that needs no care at all. */
  lemma {:induction false} ExactListingsSuffice(c: Setup, acts: seq<Act>)
    requires AllExact(c, acts)
    ensures AllAllowed(c, acts) && AllCareful(c, acts) && NoOrphans(Run(c, acts)) && AlwaysOne(c, acts)
  {
    if acts != [] {
      ExactListingsSuffice(c, acts[..|acts| - 1]);
      StepFindsNoOrphans(c, Run(c, acts[..|acts| - 1]), acts[|acts| - 1]);
    }
    NeverTwoInstances(c, acts);
  }

  /** And with a listing that lags it does: one live and one dead instance of ours, a state that
      holds neither, two failed destroys, and the same tick rents a second one. */
  lemma LaggingListingRentsASecond(w: World, l: Limits, publicImage: bool, x: Weather, live: Listed, dead: Listed)
    requires CloudOk(w.cloud) && w.mem.instance.None? && live.ours && dead.ours
    requires OursAlive(w.cloud, live.id) && dead.id in w.cloud.born && w.cloud.born[dead.id] && dead.id !in w.cloud.alive
    requires !RecentlyDestroyed(w.mem.history, live.id, x.now) && !RecentlyDestroyed(w.mem.history, dead.id, x.now)
    requires x.listing == Some([live, dead]) && |x.again| == 2 && x.orphans == [false, false] && x.rent == Rented
    requires x.load.Some? && x.load.value.waiting > 0 && x.credit.Some? && x.credit.value >= l.minCredit
    requires w.mem.lastRentFailure.None?
    ensures Fits(w, x) && !AtMostOne(AfterTick(w, l, publicImage, x).cloud)
  {
    var listing := [live, dead];
    assert listing[..1] == [live];
    assert Kept(w.mem, [live], x.now) == [live] by {
      assert [live][..0] == [];
    }
    assert Kept(w.mem, listing, x.now) == listing;
    KeepsAll(w, listing, x.now, x.again);
    FailedDestroys(w, listing, x.orphans);
    var w3 := AfterTick(w, l, publicImage, x);
    assert OursAlive(w3.cloud, live.id) && OursAlive(w3.cloud, w.cloud.next);
  }

  lemma {:induction false} FailedDestroys(w: World, ours: seq<Listed>, oks: seq<bool>)
    requires |oks| == |ours| && forall i :: 0 <= i < |oks| ==> !oks[i]
    ensures var w1 := Orphaned(w, ours, oks);
            w1 == w.(cloud := w.cloud.(called := w1.cloud.called))
    decreases |ours|
  {
    if ours != [] {
      FailedDestroys(w, ours[..|ours| - 1], oks[..|ours| - 1]);
    }
  }

  lemma {:induction false} KeepsAll(w: World, listing: seq<Listed>, now: int, oks: seq<bool>)
    requires |oks| == |listing| && forall i :: 0 <= i < |listing| ==> !AgainDue(w.mem, listing[i], now)
    ensures Again(w, listing, now, oks) == w
    decreases |listing|
  {
    if listing != [] {
      KeepsAll(w, listing[..|listing| - 1], now, oks[..|listing| - 1]);
    }
  }

  /** Only instances the scaler created or saw with its label are ever destroyed; others never are. */
  lemma DestroysOnlyOurs(c: Setup, acts: seq<Act>, id: Id)
    requires AllAllowed(c, acts) && id in Run(c, acts).w.cloud.called
    ensures id in Run(c, acts).w.cloud.mine && id in Run(c, acts).w.cloud.born && Run(c, acts).w.cloud.born[id]
  {
    EveryRunKeeps(c, acts);
  }

  // --- Idle shutdown ----------------------------------------------------------------------------------

  predicate Loaded(e: Entry) { e.kept && e.load.Some? && (e.load.value.waiting > 0 || e.load.value.active > 0) }

  /** The decision numbered k started a timer at t, and none since that kept an instance saw work. */
  ghost predicate Justified(log: seq<Entry>, k: nat, t: int)
  {
    k < |log| && log[k].now == t && log[k].timer == Some(t) && !BusySince(log, k)
  }

  ghost predicate BusySince(log: seq<Entry>, k: nat) { exists j :: k <= j < |log| && Loaded(log[j]) }

  /** The timer in memory, if any, has run for an instance that was idle ever since. */
  ghost predicate TimerIsTrue(s: System)
  {
    s.w.mem.idleSince.Some? ==> Justified(s.log, s.from, s.w.mem.idleSince.value)
  }

  /** A crash brings back a timer that a busy decision had cleared: the file was not written since. */
  ghost predicate Revives(s: System, a: Act)
  {
    a.Crash? && s.w.disk.idleSince.Some? && BusySince(s.log, s.fileFrom)
  }

  /** From act k on no crash does that. */
  ghost predicate NoRevival(c: Setup, acts: seq<Act>, k: nat)
    requires k <= |acts|
  {
    forall j :: k <= j < |acts| ==> !Revives(Run(c, acts[..j]), acts[j])
  }

  /** Each timer was started by its decision; a true one in the file is no newer than memory's. */
  ghost predicate TimersOk(s: System)
  {
    && (s.w.mem.idleSince.Some? ==> Started(s.log, s.from, s.w.mem.idleSince.value))
    && (s.w.disk.idleSince.Some? ==> Started(s.log, s.fileFrom, s.w.disk.idleSince.value))
    && (s.w.disk.idleSince.Some? && s.w.mem.idleSince.Some? && !BusySince(s.log, s.fileFrom) ==> !BusySince(s.log, s.from))
  }

  predicate Started(log: seq<Entry>, k: nat, t: int) { k < |log| && log[k].now == t && log[k].timer == Some(t) }

  /** A busy decision clears the timer in memory. */
  lemma BusyClears(c: Setup, s: System, a: Act)
    requires a.Judge? && s.pc.Observed? && TimersOk(s)
    ensures var s' := Step(c, s, a);
            && |s'.log| == |s.log| + 1 && s'.log[..|s.log|] == s.log
            && (Loaded(s'.log[|s.log|]) ==> s'.w.mem.idleSince.None?)
            && (s'.w.mem.idleSince.Some? ==>
                  if s'.from == |s.log| then s'.log[|s.log|].timer == s'.w.mem.idleSince == Some(a.now) && s'.log[|s.log|].now == a.now
                  else s'.from == s.from && s'.w.mem.idleSince == s.w.mem.idleSince)
            && (s'.w.disk.idleSince.Some? ==>
                  (s'.fileFrom == s'.from && s'.w.disk.idleSince == s'.w.mem.idleSince) ||
                  (s'.fileFrom == s.fileFrom && s'.w.disk.idleSince == s.w.disk.idleSince))
  {
  }

  lemma OneMoreEntry(log: seq<Entry>, more: seq<Entry>, k: nat)
    requires |more| == |log| + 1 && more[..|log|] == log
    ensures k <= |log| ==> (BusySince(more, k) <==> BusySince(log, k) || Loaded(more[|log|]))
    ensures forall j :: 0 <= j < |log| ==> more[j] == log[j]
  {
    assert forall j :: 0 <= j < |log| ==> more[j] == log[j];
    if k <= |log| && Loaded(more[|log|]) {
      assert Loaded(more[|more| - 1]);
    }
    if k <= |log| && BusySince(log, k) {
      var j :| k <= j < |log| && Loaded(log[j]);
      assert Loaded(more[j]);
    }
  }

  lemma JudgeKeepsTimers(c: Setup, s: System, a: Act)
    requires a.Judge? && s.pc.Observed? && TimersOk(s)
    ensures TimersOk(Step(c, s, a))
    ensures TimerIsTrue(s) ==> TimerIsTrue(Step(c, s, a))
  {
    var s' := Step(c, s, a);
    BusyClears(c, s, a);
    OneMoreEntry(s.log, s'.log, s.from);
    OneMoreEntry(s.log, s'.log, s.fileFrom);
    OneMoreEntry(s.log, s'.log, |s.log|);
  }

  /** The other steps write the file or not, and start no timer. */
  lemma OthersMoveTimers(c: Setup, s: System, a: Act)
    requires !(a.Judge? && s.pc.Observed?) && !a.Crash?
    ensures var s' := Step(c, s, a);
            && s'.log == s.log && s'.from == s.from
            && (s'.w.mem.idleSince.Some? ==> s'.w.mem.idleSince == s.w.mem.idleSince)
            && (s'.w.disk.idleSince.Some? ==>
                  (s'.fileFrom == s'.from && s'.w.disk.idleSince == s'.w.mem.idleSince) ||
                  (s'.fileFrom == s.fileFrom && s'.w.disk.idleSince == s.w.disk.idleSince))
  {
  }

  lemma StepKeepsTimers(c: Setup, s: System, a: Act)
    requires TimersOk(s)
    ensures TimersOk(Step(c, s, a))
    ensures TimerIsTrue(s) && !Revives(s, a) ==> TimerIsTrue(Step(c, s, a))
  {
    if a.Judge? && s.pc.Observed? {
      JudgeKeepsTimers(c, s, a);
    } else if !a.Crash? {
      OthersMoveTimers(c, s, a);
    }
  }

  lemma {:induction false} RunsKeepTimers(c: Setup, acts: seq<Act>)
    ensures TimersOk(Run(c, acts))
  {
    if acts != [] {
      RunsKeepTimers(c, acts[..|acts| - 1]);
      StepKeepsTimers(c, Run(c, acts[..|acts| - 1]), acts[|acts| - 1]);
    }
  }

  /** A true timer was not revived by the last step, and was true or absent before it. */
  lemma TrueBefore(c: Setup, s: System, a: Act)
    requires TimersOk(s) && TimerIsTrue(Step(c, s, a)) && Step(c, s, a).w.mem.idleSince.Some?
    ensures TimerIsTrue(s) && !Revives(s, a)
  {
    var s' := Step(c, s, a);
    if a.Judge? && s.pc.Observed? {
      BusyClears(c, s, a);
      OneMoreEntry(s.log, s'.log, s.from);
    } else if !a.Crash? {
      OthersMoveTimers(c, s, a);
    }
  }

  /** Since some moment without a timer no crash revived one. */
  ghost predicate CleanSince(c: Setup, acts: seq<Act>, k: nat)
  {
    k <= |acts| && Run(c, acts[..k]).w.mem.idleSince.None? && NoRevival(c, acts, k)
  }

  lemma OneMoreAct(c: Setup, acts: seq<Act>, k: nat)
    requires k < |acts|
    ensures var init := acts[..|acts| - 1];
            CleanSince(c, acts, k) <==> CleanSince(c, init, k) && !Revives(Run(c, init), acts[|acts| - 1])
  {
    var init := acts[..|acts| - 1];
    assert forall j :: 0 <= j < |acts| ==> init[..j] == acts[..j];
  }

  /** After any run the timer in memory is true exactly when, since some moment without a timer, no
      crash brought back one that a busy decision had cleared. Failed saves alone do no harm. */
  lemma {:induction false} TimerIsTrueExactlyWhen(c: Setup, acts: seq<Act>)
    ensures TimerIsTrue(Run(c, acts)) <==> exists k :: CleanSince(c, acts, k)
  {
    var s := Run(c, acts);
    if s.w.mem.idleSince.None? {
      assert acts[..|acts|] == acts;
      assert CleanSince(c, acts, |acts|);
    } else {
      var init, last := acts[..|acts| - 1], acts[|acts| - 1];
      TimerIsTrueExactlyWhen(c, init);
      RunsKeepTimers(c, init);
      if TimerIsTrue(s) {
        TrueBefore(c, Run(c, init), last);
        var k :| CleanSince(c, init, k);
        OneMoreAct(c, acts, k);
      }
      if k :| CleanSince(c, acts, k) {
        assert acts[..|acts|] == acts;
        OneMoreAct(c, acts, k);
        StepKeepsTimers(c, Run(c, init), last);
      }
    }
  }

  // --- The same from the saves and crashes alone -----------------------------------------------

  /** The step writes the state file. */
  predicate Writes(c: Setup, s: System, a: Act)
  {
    match a
    case Choose(_, saved) =>
      saved && s.pc.Sorting? && s.pc.i >= |s.pc.listing| && s.w.mem.instance.None? && |s.pc.ours| == 1
    case Track(saved) => saved && s.pc.Observed? && s.w.mem.instance.Some?
    case Judge(now, load, credit, saved) =>
      saved && s.pc.Observed? &&
      Decide(Observe(s.w, s.pc.listing, now, load, credit), s.w.mem.idleSince, c.limits).idleSince != s.w.mem.idleSince
    case Carry(_, destroyed, _, saved) =>
      saved && s.pc.Acting? &&
      (s.pc.action == Rent || (s.w.mem.instance.Some? && (s.pc.action == Forget || (s.pc.action == Destroy && destroyed))))
    case _ => false
  }

  /** The step decides to keep an instance that has work: whatever timer there is, it clears. */
  predicate Works(s: System, a: Act, c: Setup)
  {
    a.Judge? && s.pc.Observed? && Loaded(Step(c, s, a).log[|s.log|])
  }

  /** What the step number i of a run does. */
  ghost predicate WritesAt(c: Setup, acts: seq<Act>, i: nat)
    requires i < |acts|
  {
    Writes(c, Run(c, acts[..i]), acts[i])
  }

  ghost predicate WorksAt(c: Setup, acts: seq<Act>, i: nat)
    requires i < |acts|
  {
    Works(Run(c, acts[..i]), acts[i], c)
  }

  /** Since the busy decision j, its own save included, no save has succeeded. */
  ghost predicate UnsavedSince(c: Setup, acts: seq<Act>, j: nat)
    requires j < |acts|
  {
    WorksAt(c, acts, j) && forall i :: j <= i < |acts| ==> !WritesAt(c, acts, i)
  }

  ghost predicate Unsaved(c: Setup, acts: seq<Act>) { exists j :: 0 <= j < |acts| && UnsavedSince(c, acts, j) }

  lemma SameSteps(c: Setup, acts: seq<Act>, i: nat)
    requires i < |acts| - 1
    ensures var init := acts[..|acts| - 1];
            (WritesAt(c, acts, i) <==> WritesAt(c, init, i)) && (WorksAt(c, acts, i) <==> WorksAt(c, init, i))
  {
    assert acts[..|acts| - 1][..i] == acts[..i];
  }

  lemma NextUnsavedSince(c: Setup, acts: seq<Act>, j: nat)
    requires j < |acts|
    ensures var n := |acts| - 1;
            UnsavedSince(c, acts, j) <==> !WritesAt(c, acts, n) && if j < n then UnsavedSince(c, acts[..n], j) else WorksAt(c, acts, n)
  {
    var n := |acts| - 1;
    forall i | 0 <= i < n
      ensures (WritesAt(c, acts, i) <==> WritesAt(c, acts[..n], i)) && (WorksAt(c, acts, i) <==> WorksAt(c, acts[..n], i))
    {
      SameSteps(c, acts, i);
    }
  }

  lemma NextUnsaved(c: Setup, acts: seq<Act>)
    requires acts != []
    ensures var n := |acts| - 1;
            Unsaved(c, acts) <==> !WritesAt(c, acts, n) && (Unsaved(c, acts[..n]) || WorksAt(c, acts, n))
  {
    var n := |acts| - 1;
    forall j | 0 <= j < |acts|
      ensures UnsavedSince(c, acts, j) <==>
              !WritesAt(c, acts, n) && if j < n then UnsavedSince(c, acts[..n], j) else WorksAt(c, acts, n)
    {
      NextUnsavedSince(c, acts, j);
    }
    if Unsaved(c, acts[..n]) && !WritesAt(c, acts, n) {
      var j :| 0 <= j < n && UnsavedSince(c, acts[..n], j);
      assert UnsavedSince(c, acts, j);
    }
    if WorksAt(c, acts, n) && !WritesAt(c, acts, n) {
      assert UnsavedSince(c, acts, n);
    }
  }

  /** What a write does to the timer in the file, and what else leaves it alone. */
  lemma WritesFile(c: Setup, s: System, a: Act)
    ensures var s' := Step(c, s, a);
            && (Writes(c, s, a) ==> s'.w.disk.idleSince == s'.w.mem.idleSince && s'.fileFrom == s'.from)
            && (!Writes(c, s, a) ==> s'.w.disk.idleSince == s.w.disk.idleSince && s'.fileFrom == s.fileFrom)
            && (if a.Judge? && s.pc.Observed? then |s'.log| == |s.log| + 1 && s'.log[..|s.log|] == s.log else s'.log == s.log)
  {
  }

  ghost predicate AlwaysTrue(c: Setup, acts: seq<Act>)
  {
    TimerIsTrue(Run(c, acts)) && (acts == [] || AlwaysTrue(c, acts[..|acts| - 1]))
  }

  /** A timer in the file is older than a busy decision when one is unsaved, and only then if no
      untrue timer was ever in memory to be written. */
  lemma {:induction false} FileIsStale(c: Setup, acts: seq<Act>)
    ensures var s := Run(c, acts);
            s.w.disk.idleSince.Some? ==>
              (Unsaved(c, acts) ==> BusySince(s.log, s.fileFrom)) &&
              (AlwaysTrue(c, acts) && BusySince(s.log, s.fileFrom) ==> Unsaved(c, acts))
  {
    if acts != [] {
      var init, last := acts[..|acts| - 1], acts[|acts| - 1];
      FileIsStale(c, init);
      RunsKeepTimers(c, init);
      NextUnsaved(c, acts);
      StaleStep(c, Run(c, init), last);
    }
  }

  lemma StaleStep(c: Setup, s: System, a: Act)
    requires TimersOk(s)
    ensures var s' := Step(c, s, a);
            && (Writes(c, s, a) && TimerIsTrue(s') && s'.w.disk.idleSince.Some? ==> !BusySince(s'.log, s'.fileFrom))
            && (!Writes(c, s, a) && s'.w.disk.idleSince.Some? ==>
                  s.w.disk.idleSince.Some? && (BusySince(s'.log, s'.fileFrom) <==> BusySince(s.log, s.fileFrom) || Works(s, a, c)))
  {
    var s' := Step(c, s, a);
    WritesFile(c, s, a);
    if a.Judge? && s.pc.Observed? {
      OneMoreEntry(s.log, s'.log, s.fileFrom);
    }
  }

  /** A crash that forgets: the file holds a timer, and the clearing by a busy decision was not saved,
      neither then nor since. */
  ghost predicate Forgets(c: Setup, acts: seq<Act>, k: nat)
    requires k < |acts|
  {
    acts[k].Crash? && Run(c, acts[..k]).w.disk.idleSince.Some? && Unsaved(c, acts[..k])
  }

  /** The timer in memory is true in every state of a run exactly when no crash in it forgets. */
  lemma {:induction false} TimersAlwaysTrueExactlyWhen(c: Setup, acts: seq<Act>)
    ensures AlwaysTrue(c, acts) <==> forall k :: 0 <= k < |acts| ==> !Forgets(c, acts, k)
  {
    if acts != [] {
      var n := |acts| - 1;
      var init := acts[..n];
      TimersAlwaysTrueExactlyWhen(c, init);
      forall k | 0 <= k < n
        ensures Forgets(c, acts, k) <==> Forgets(c, init, k)
      {
        assert init[..k] == acts[..k];
      }
      if AlwaysTrue(c, init) {
        NextStaysTrue(c, acts);
      }
    }
  }

  lemma NextStaysTrue(c: Setup, acts: seq<Act>)
    requires acts != [] && AlwaysTrue(c, acts[..|acts| - 1])
    ensures TimerIsTrue(Run(c, acts)) <==> !Forgets(c, acts, |acts| - 1)
  {
    var init, last := acts[..|acts| - 1], acts[|acts| - 1];
    FileIsStale(c, init);
    RunsKeepTimers(c, init);
    StepKeepsTimers(c, Run(c, init), last);
    RevivedIsUntrue(c, Run(c, init), last);
  }

  lemma RevivedIsUntrue(c: Setup, s: System, a: Act)
    ensures Revives(s, a) ==> !TimerIsTrue(Step(c, s, a))
  {
  }

  /** An instance destroyed for idleness has been idle for the whole limit, since a decision that
      started the timer and with no busy one after it, exactly under that condition: through failed
      destroys, failed saves, other crashes and ticks without queue data. */
  lemma IdleShutdownIsJustified(c: Setup, acts: seq<Act>, now: int, load: Option<Load>, credit: Option<real>)
    requires Run(c, acts).pc.Observed?
    requires var s := Run(c, acts);
             Decide(Observe(s.w, s.pc.listing, now, load, credit), s.w.mem.idleSince, c.limits).reason == IdleTooLong
    ensures var s := Run(c, acts);
            && s.w.mem.idleSince.Some? && now - s.w.mem.idleSince.value >= c.limits.idle
            && (Justified(s.log, s.from, s.w.mem.idleSince.value) <==> exists k :: CleanSince(c, acts, k))
  {
    TimerIsTrueExactlyWhen(c, acts);
  }

  /** The timer survives a crash, a destroy that fails, and ticks that learn nothing. */
  lemma TimerSurvives(c: Setup, s: System, a: Act, t: int)
    requires s.w.mem.idleSince == s.w.disk.idleSince == Some(t)
    requires a.Judge? && s.pc.Observed? ==> s.w.mem.instance.Some? && a.load.None?
    requires a.Carry? && s.pc.Acting? ==> s.pc.action == Keep || (s.pc.action == Destroy && !a.destroyed)
    ensures Step(c, s, a).w.mem.idleSince == Step(c, s, a).w.disk.idleSince == Some(t)
  {
  }
}
