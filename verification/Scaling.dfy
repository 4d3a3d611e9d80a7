/**
 The GPU scaler (scaler.go): its state in memory and on disk, the cloud its
 calls act on, and every step of a tick.
 */
module Scaling {
  import opened Prelude
  import opened ScalerPolicy

  type Id = nat

  const DESTROY_GRACE := 3600                              // seconds
  const KEPT_RECORDS := 50

  datatype Held = Held(id: Id, rentedAt: int, public: bool)

  datatype Record = Record(id: Id, destroyedAt: int)

  datatype State = State(instance: Option<Held>, idleSince: Option<int>, lastRentFailure: Option<int>, history: seq<Record>)

  const EMPTY := State(None, None, None, [])

  /** One line of the cloud's listing. */
  datatype Listed = Listed(id: Id, ours: bool, running: bool, started: Option<int>)

  /** The cloud: every instance ever created with whether it carries our label, those alive, and
      the history of what the scaler created or saw labelled and of what it asked to destroy. */
  datatype Cloud = Cloud(born: map<Id, bool>, alive: set<Id>, next: Id, mine: set<Id>, called: set<Id>)

  datatype World = World(cloud: Cloud, mem: State, disk: State)

  // --- Effects ------------------------------------------------------------------------

  function LastRecords(history: seq<Record>): seq<Record>
  {
    if |history| > KEPT_RECORDS then history[|history| - KEPT_RECORDS..] else history
  }

  function Saved(w: World, ok: bool): World
  {
    var mem := w.mem.(history := LastRecords(w.mem.history));
    w.(mem := mem, disk := if ok then mem else w.disk)
  }

  /** A destroy that reports success works; one that fails does nothing by itself. */
  function DestroyCalled(c: Cloud, id: Id, ok: bool): Cloud
  {
    c.(alive := if ok then c.alive - {id} else c.alive, called := c.called + {id})
  }

  function Created(c: Cloud, ours: bool): Cloud
  {
    Cloud(c.born[c.next := ours], c.alive + {c.next}, c.next + 1, if ours then c.mine + {c.next} else c.mine, c.called)
  }

  predicate RecentlyDestroyed(history: seq<Record>, id: Id, now: int)
  {
    exists i :: 0 <= i < |history| && history[i].id == id && now - history[i].destroyedAt < DESTROY_GRACE
  }

  predicate Holds(mem: State, id: Id) { mem.instance.Some? && mem.instance.value.id == id }

  /** The first pass over the listing: an instance destroyed a moment ago is destroyed again. */
  predicate AgainDue(mem: State, l: Listed, now: int)
  {
    l.ours && RecentlyDestroyed(mem.history, l.id, now) && !Holds(mem, l.id)
  }

  function AgainOne(w: World, l: Listed, now: int, ok: bool): World
  {
    if AgainDue(w.mem, l, now) then w.(cloud := DestroyCalled(w.cloud, l.id, ok)) else w
  }

  function Sorted(mem: State, ours: seq<Listed>, l: Listed, now: int): seq<Listed>
  {
    if l.ours && !AgainDue(mem, l, now) then ours + [l] else ours
  }

  /** The second pass: whatever carries our label and is not ours to keep. */
  function OrphanOne(w: World, l: Listed, ok: bool): World
  {
    if Holds(w.mem, l.id) then w else w.(cloud := DestroyCalled(w.cloud, l.id, ok))
  }

  function Adopted(w: World, l: Listed, now: int, saved: bool): World
  {
    var rented := if l.started.Some? then l.started.value else now;
    Saved(w.(mem := w.mem.(instance := Some(Held(l.id, rented, false)))), saved)
  }

  function Again(w: World, listing: seq<Listed>, now: int, oks: seq<bool>): World
    requires |oks| == |listing|
    decreases |listing|
  {
    if listing == [] then w
    else
      var n := |listing| - 1;
      AgainOne(Again(w, listing[..n], now, oks[..n]), listing[n], now, oks[n])
  }

  /** What the first pass keeps. */
  function Kept(mem: State, listing: seq<Listed>, now: int): seq<Listed>
    decreases |listing|
  {
    if listing == [] then []
    else
      var n := |listing| - 1;
      Sorted(mem, Kept(mem, listing[..n], now), listing[n], now)
  }

  function Orphaned(w: World, ours: seq<Listed>, oks: seq<bool>): World
    requires |oks| == |ours|
    decreases |ours|
  {
    if ours == [] then w
    else
      var n := |ours| - 1;
      OrphanOne(Orphaned(w, ours[..n], oks[..n]), ours[n], oks[n])
  }

  function Reconciled(w: World, listing: seq<Listed>, now: int, again: seq<bool>, orphans: seq<bool>, saved: bool): World
    requires |again| == |listing| && |orphans| == |Kept(w.mem, listing, now)|
  {
    var w1 := Again(w, listing, now, again);
    var ours := Kept(w.mem, listing, now);
    if w.mem.instance.None? && |ours| == 1 then Adopted(w1, ours[0], now, saved)
    else Orphaned(w1, ours, orphans)
  }

  datatype RentOutcome =
    | NoOffer                                              // the search failed or found nothing
    | CreateFailed(created: bool)                          // an error, with or without an instance left behind
    | Rented

  function AfterRent(w: World, outcome: RentOutcome, public: bool, now: int, saved: bool): World
  {
    match outcome
    case NoOffer => Saved(w.(mem := w.mem.(lastRentFailure := Some(now))), saved)
    case CreateFailed(created) =>
      Saved(w.(mem := w.mem.(lastRentFailure := Some(now)), cloud := if created then Created(w.cloud, true) else w.cloud), saved)
    case Rented =>
      Saved(w.(mem := w.mem.(instance := Some(Held(w.cloud.next, now, public)), idleSince := None, lastRentFailure := None),
               cloud := Created(w.cloud, true)), saved)
  }

  function Closed(w: World, now: int, saved: bool): World
  {
    if w.mem.instance.None? then w
    else
      Saved(w.(mem := w.mem.(history := w.mem.history + [Record(w.mem.instance.value.id, now)], instance := None, idleSince := None)),
            saved)
  }

  function AfterDestroy(w: World, ok: bool, now: int, saved: bool): World
  {
    if w.mem.instance.None? then w
    else
      var called := w.(cloud := DestroyCalled(w.cloud, w.mem.instance.value.id, ok));
      if ok then Closed(called, now, saved) else called
  }

  /** The listing's line for the instance we hold. */
  function RunningIn(listing: seq<Listed>, id: Id): Option<bool>
  {
    if listing == [] then None
    else
      var last := listing[|listing| - 1];
      if last.id == id then Some(last.running) else RunningIn(listing[..|listing| - 1], id)
  }

  function Observe(w: World, listing: seq<Listed>, now: int, load: Option<Load>, credit: Option<real>): Observation
  {
    var ours := if w.mem.instance.None? then None
                else
                  var held := w.mem.instance.value;
                  Some(Ours(held.rentedAt, RunningIn(listing, held.id), held.public));
    Observation(now, load, ours, credit, w.mem.lastRentFailure)
  }

  function AfterDecide(w: World, d: Decision, saved: bool): World
  {
    if d.idleSince == w.mem.idleSince then w else Saved(w.(mem := w.mem.(idleSince := d.idleSince)), saved)
  }

  // --- The object -----------------------------------------------------------------------

  class Scaler {
    const limits: Limits
    const publicImage: bool                                // a public image is configured
    var mem: State
    var disk: State
    var cloud: Cloud

    ghost function Snapshot(): World
      reads this
    {
      World(cloud, mem, disk)
    }

    method SaveState(ok: bool)
      modifies this`mem, this`disk
      ensures Snapshot() == Saved(old(Snapshot()), ok)
    {
      if |mem.history| > KEPT_RECORDS {
        mem := mem.(history := mem.history[|mem.history| - KEPT_RECORDS..]);
      }
      if ok {
        disk := mem;
      }
    }

    method DestroyInstance(id: Id, ok: bool)
      modifies this`cloud
      ensures cloud == DestroyCalled(old(cloud), id, ok)
    {
      cloud := cloud.(called := cloud.called + {id});
      if ok {
        cloud := cloud.(alive := cloud.alive - {id});
      }
    }

    method WasDestroyed(id: Id, now: int) returns (recently: bool)
      ensures recently == RecentlyDestroyed(mem.history, id, now)
    {
      var i := |mem.history|;
      while i > 0
        invariant 0 <= i <= |mem.history|
        invariant forall k :: i <= k < |mem.history| ==>
                    mem.history[k].id != id || now - mem.history[k].destroyedAt >= DESTROY_GRACE
      {
        i := i - 1;
        if mem.history[i].id == id && now - mem.history[i].destroyedAt < DESTROY_GRACE {
          return true;
        }
      }
      return false;
    }

    method Reconcile(listing: seq<Listed>, now: int, again: seq<bool>, orphans: seq<bool>, saved: bool)
      requires |again| == |listing| && |orphans| == |Kept(mem, listing, now)|
      modifies this
      ensures Snapshot() == Reconciled(old(Snapshot()), listing, now, again, orphans, saved)
    {
      var ours := FirstPass(listing, now, again);
      if mem.instance.None? && |ours| == 1 {
        var rented := if ours[0].started.Some? then ours[0].started.value else now;
        mem := mem.(instance := Some(Held(ours[0].id, rented, false)));
        SaveState(saved);
        return;
      }
      SecondPass(ours, orphans);
    }

    method FirstPass(listing: seq<Listed>, now: int, again: seq<bool>) returns (ours: seq<Listed>)
      requires |again| == |listing|
      modifies this`cloud
      ensures Snapshot() == Again(old(Snapshot()), listing, now, again)
      ensures ours == Kept(mem, listing, now)
    {
      ours := [];
      for i := 0 to |listing|
        invariant Snapshot() == Again(old(Snapshot()), listing[..i], now, again[..i])
        invariant ours == Kept(mem, listing[..i], now)
      {
        assert listing[..i + 1][..i] == listing[..i] && again[..i + 1][..i] == again[..i];
        var l := listing[i];
        if !l.ours {
          continue;
        }
        var recently := WasDestroyed(l.id, now);
        if recently && (mem.instance.None? || l.id != mem.instance.value.id) {
          DestroyInstance(l.id, again[i]);
          continue;
        }
        ours := ours + [l];
      }
      assert listing[..|listing|] == listing && again[..|listing|] == again;
    }

    method SecondPass(ours: seq<Listed>, oks: seq<bool>)
      requires |oks| == |ours|
      modifies this`cloud
      ensures Snapshot() == Orphaned(old(Snapshot()), ours, oks)
    {
      for i := 0 to |ours|
        invariant Snapshot() == Orphaned(old(Snapshot()), ours[..i], oks[..i])
      {
        assert ours[..i + 1][..i] == ours[..i] && oks[..i + 1][..i] == oks[..i];
        if mem.instance.Some? && ours[i].id == mem.instance.value.id {
          continue;
        }
        DestroyInstance(ours[i].id, oks[i]);
      }
      assert ours[..|ours|] == ours && oks[..|ours|] == oks;
    }

    method Rent(outcome: RentOutcome, internal: nat, now: int, saved: bool)
      modifies this
      ensures Snapshot() == AfterRent(old(Snapshot()), outcome, publicImage && internal == 0, now, saved)
    {
      if outcome.NoOffer? || outcome.CreateFailed? {
        if outcome.CreateFailed? && outcome.created {
          cloud := Created(cloud, true);
        }
        mem := mem.(lastRentFailure := Some(now));
        SaveState(saved);
        return;
      }
      var id := cloud.next;
      cloud := Created(cloud, true);
      mem := mem.(instance := Some(Held(id, now, publicImage && internal == 0)));
      mem := mem.(idleSince := None);
      mem := mem.(lastRentFailure := None);
      SaveState(saved);
    }

    method Close(now: int, saved: bool)
      modifies this
      ensures Snapshot() == Closed(old(Snapshot()), now, saved)
    {
      if mem.instance.None? {
        return;
      }
      mem := mem.(history := mem.history + [Record(mem.instance.value.id, now)]);
      mem := mem.(instance := None);
      mem := mem.(idleSince := None);
      SaveState(saved);
    }

    method Destroy(ok: bool, now: int, saved: bool)
      modifies this
      ensures Snapshot() == AfterDestroy(old(Snapshot()), ok, now, saved)
    {
      if mem.instance.None? {
        return;
      }
      DestroyInstance(mem.instance.value.id, ok);
      if ok {
        Close(now, saved);
      }
    }

    method Tick(x: Weather)
      requires Fits(Snapshot(), x)
      modifies this
      ensures Snapshot() == AfterTick(old(Snapshot()), limits, publicImage, x)
    {
      if x.listing.None? {
        return;
      }
      Reconcile(x.listing.value, x.now, x.again, x.orphans, x.adoptSaved);
      ghost var reconciled := Snapshot();
      var o := Observe(World(cloud, mem, disk), x.listing.value, x.now, x.load, x.credit);
      var d := Decide(o, mem.idleSince, limits);
      if d.idleSince != mem.idleSince {
        mem := mem.(idleSince := d.idleSince);
        SaveState(x.idleSaved);
      }
      assert Snapshot() == AfterDecide(reconciled, d, x.idleSaved);
      match d.action
      case Keep =>
      case Rent => Rent(x.rent, if x.load.Some? then x.load.value.internal else 0, x.now, x.actSaved);
      case Destroy => Destroy(x.destroyed, x.now, x.actSaved);
      case Forget => Close(x.now, x.actSaved);
    }
  }


  // --- A whole tick nobody interrupts -----------------------------------------------------

  /** Everything outside that a tick meets; a failed listing ends it at once. */
  datatype Weather = Weather(
    now: int, load: Option<Load>, listing: Option<seq<Listed>>, credit: Option<real>,
    again: seq<bool>, orphans: seq<bool>, adoptSaved: bool, idleSaved: bool, rent: RentOutcome, destroyed: bool, actSaved: bool)

  predicate Fits(w: World, x: Weather)
  {
    x.listing.Some? ==> |x.again| == |x.listing.value| && |x.orphans| == |Kept(w.mem, x.listing.value, x.now)|
  }

  function AfterTick(w: World, l: Limits, publicImage: bool, x: Weather): World
    requires Fits(w, x)
  {
    if x.listing.None? then w
    else Finished(Reconciled(w, x.listing.value, x.now, x.again, x.orphans, x.adoptSaved), l, publicImage, x)
  }

  /** The part of a tick after reconcile. */
  function Finished(w: World, l: Limits, publicImage: bool, x: Weather): World
    requires x.listing.Some?
  {
    var d := Decide(Observe(w, x.listing.value, x.now, x.load, x.credit), w.mem.idleSince, l);
    Acted(AfterDecide(w, d, x.idleSaved), d.action, x.rent, x.destroyed,
          publicImage && (x.load.None? || x.load.value.internal == 0), x.now, x.actSaved)
  }

  function Acted(w: World, action: Action, rent: RentOutcome, destroyed: bool, public: bool, now: int, saved: bool): World
  {
    match action
    case Keep => w
    case Rent => AfterRent(w, rent, public, now, saved)
    case Destroy => AfterDestroy(w, destroyed, now, saved)
    case Forget => Closed(w, now, saved)
  }

  // --- Back to at most one from anywhere ------------------------------------------------------

  predicate OursAlive(c: Cloud, id: Id) { id in c.alive && id in c.born && c.born[id] }

  ghost predicate AtMostOne(c: Cloud)
  {
    forall a, b :: OursAlive(c, a) && OursAlive(c, b) ==> a == b
  }

  predicate Names(listing: seq<Listed>, id: Id)
  {
    exists i :: 0 <= i < |listing| && listing[i].id == id
  }

  /** A listing names every live instance, each line with the label its instance was given. */
  ghost predicate Truthful(c: Cloud, listing: seq<Listed>)
  {
    && (forall i :: 0 <= i < |listing| ==> listing[i].id in c.born && c.born[listing[i].id] == listing[i].ours)
    && (forall id :: OursAlive(c, id) ==> Names(listing, id))
  }

  /** Ids are handed out in order. */
  ghost predicate CloudOk(c: Cloud)
  {
    && (forall id :: id in c.born ==> id < c.next)
    && (forall id :: id in c.alive ==> id in c.born)
    && (forall id :: id in c.mine ==> id in c.born && c.born[id])
    && c.called <= c.mine
  }

  predicate AllTrue(oks: seq<bool>) { forall i :: 0 <= i < |oks| ==> oks[i] }

  /** The cloud after some destroys: nothing new, fewer alive. */
  ghost predicate OnlyFewer(w: World, w1: World)
  {
    w1.mem == w.mem && w1.disk == w.disk && w1.cloud.born == w.cloud.born && w1.cloud.alive <= w.cloud.alive
  }

  lemma {:induction false} AgainOnlyDestroys(w: World, listing: seq<Listed>, now: int, oks: seq<bool>)
    requires |oks| == |listing|
    ensures OnlyFewer(w, Again(w, listing, now, oks))
    decreases |listing|
  {
    if listing != [] {
      AgainOnlyDestroys(w, listing[..|listing| - 1], now, oks[..|listing| - 1]);
    }
  }

  lemma {:induction false} OrphansOnlyDestroys(w: World, ours: seq<Listed>, oks: seq<bool>)
    requires |oks| == |ours|
    ensures OnlyFewer(w, Orphaned(w, ours, oks))
    decreases |ours|
  {
    if ours != [] {
      OrphansOnlyDestroys(w, ours[..|ours| - 1], oks[..|ours| - 1]);
    }
  }

  /** A labelled instance is kept for the second pass or destroyed in the first. */
  lemma {:induction false} FirstPassLeaves(w: World, listing: seq<Listed>, now: int, oks: seq<bool>, id: Id)
    requires |oks| == |listing| && AllTrue(oks) && Names(listing, id)
    requires forall i :: 0 <= i < |listing| && listing[i].id == id ==> listing[i].ours
    ensures OursAlive(Again(w, listing, now, oks).cloud, id) ==> Names(Kept(w.mem, listing, now), id)
    decreases |listing|
  {
    var n := |listing| - 1;
    var kept := Kept(w.mem, listing, now);
    AgainOnlyDestroys(w, listing[..n], now, oks[..n]);
    if listing[n].id == id {
      assert !AgainDue(w.mem, listing[n], now) ==> kept[|kept| - 1].id == id;
    } else if OursAlive(Again(w, listing, now, oks).cloud, id) {
      var i :| 0 <= i < |listing| && listing[i].id == id;
      assert listing[..n][i].id == id;
      FirstPassLeaves(w, listing[..n], now, oks[..n], id);
      var before := Kept(w.mem, listing[..n], now);
      var k :| 0 <= k < |before| && before[k].id == id;
      assert kept[k].id == id;
    }
  }

  /** What the second pass leaves alive of its list is the instance held. */
  lemma {:induction false} SecondPassLeaves(w: World, ours: seq<Listed>, oks: seq<bool>, id: Id)
    requires |oks| == |ours| && AllTrue(oks) && Names(ours, id)
    ensures OursAlive(Orphaned(w, ours, oks).cloud, id) ==> Holds(w.mem, id)
    decreases |ours|
  {
    var n := |ours| - 1;
    OrphansOnlyDestroys(w, ours[..n], oks[..n]);
    if ours[n].id != id {
      var i :| 0 <= i < |ours| && ours[i].id == id;
      assert ours[..n][i].id == id;
      SecondPassLeaves(w, ours[..n], oks[..n], id);
    }
  }

  lemma ReconcileLeavesOurs(w: World, listing: seq<Listed>, now: int, again: seq<bool>, orphans: seq<bool>, saved: bool, id: Id)
    requires |again| == |listing| && |orphans| == |Kept(w.mem, listing, now)| && AllTrue(again) && AllTrue(orphans)
    requires Truthful(w.cloud, listing)
    requires OursAlive(Reconciled(w, listing, now, again, orphans, saved).cloud, id)
    ensures Holds(Reconciled(w, listing, now, again, orphans, saved).mem, id)
  {
    var w1, kept := Again(w, listing, now, again), Kept(w.mem, listing, now);
    AgainOnlyDestroys(w, listing, now, again);
    OrphansOnlyDestroys(w1, kept, orphans);
    assert OursAlive(w1.cloud, id) && OursAlive(w.cloud, id);
    FirstPassLeaves(w, listing, now, again, id);
    SecondPassLeaves(w1, kept, orphans, id);
  }

  /** From any state, however it came about, one tick in which the listing is truthful and the
      destroys succeed leaves at most one labelled instance alive. */
  lemma OneGoodTickIsEnough(w: World, l: Limits, publicImage: bool, x: Weather)
    requires Fits(w, x) && x.listing.Some? && Truthful(w.cloud, x.listing.value)
    requires AllTrue(x.again) && AllTrue(x.orphans)
    ensures AtMostOne(AfterTick(w, l, publicImage, x).cloud)
  {
    var w1 := Reconciled(w, x.listing.value, x.now, x.again, x.orphans, x.adoptSaved);
    forall id | OursAlive(w1.cloud, id)
      ensures Holds(w1.mem, id)
    {
      ReconcileLeavesOurs(w, x.listing.value, x.now, x.again, x.orphans, x.adoptSaved, id);
    }
    TickEndsWithOne(w1, l, publicImage, x);
  }

  /** Once nothing labelled is alive but what we hold, the rest of the tick adds at most one. */
  lemma TickEndsWithOne(w1: World, l: Limits, publicImage: bool, x: Weather)
    requires x.listing.Some? && forall id :: OursAlive(w1.cloud, id) ==> Holds(w1.mem, id)
    ensures AtMostOne(Finished(w1, l, publicImage, x).cloud)
  {
    var w2 := Finished(w1, l, publicImage, x);
    forall a, b | OursAlive(w2.cloud, a) && OursAlive(w2.cloud, b)
      ensures a == b
    {
      if w1.mem.instance.None? {
        assert !OursAlive(w1.cloud, a) && !OursAlive(w1.cloud, b);
      } else {
        assert OursAlive(w1.cloud, a) && OursAlive(w1.cloud, b);
      }
    }
  }
}
