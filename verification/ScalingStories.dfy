/**
 Two runs of the scaler that end badly, act by act: a cleared idle timer that is
 not saved, and a listing that still names a dead instance.
 */
module ScalingStories {
  import opened Prelude
  import opened ScalerPolicy
  import opened Scaling
  import opened ScalingRuns

  // --- A busy instance ends ---------------------------------------------------------------------

  const ONE := [Listed(0, true, true, None)]

  /** A tick up to its decision, which finds the one instance held alive. */
  function Look(now: int): seq<Act> { [List(ONE), Sort(now, true), Choose(now, true), Orphan(true), Orphan(true)] }

  function Rest(now: int): Act { Carry(NoOffer, false, now, true) }

  /** An instance is rented at 0 and idle at 10; at 20 it has work, but the cleared timer is not
      saved, and the scaler crashes. */
  function Story(c: Setup): seq<Act>
  {
    [List([]), Choose(0, true), Orphan(true), Judge(0, Some(Load(1, 0, 0)), Some(c.limits.minCredit), true), Carry(Rented, true, 0, true)]
    + Look(10) + [Judge(10, Some(Load(0, 0, 0)), None, true), Rest(10)]
    + Look(20) + [Judge(20, Some(Load(1, 1, 0)), None, false), Rest(20), Crash]
  }

  function Onward(c: Setup, s: System, acts: seq<Act>): System
    decreases |acts|
  {
    if acts == [] then s else Onward(c, Step(c, s, acts[0]), acts[1..])
  }

  lemma {:induction false} RunsOn(c: Setup, acts: seq<Act>, more: seq<Act>)
    ensures Run(c, acts + more) == Onward(c, Run(c, acts), more)
    decreases |more|
  {
    if more == [] {
      assert acts + more == acts;
    } else {
      RunsOn(c, acts + [more[0]], more[1..]);
      assert acts + [more[0]] + more[1..] == acts + more;
      assert (acts + [more[0]])[..|acts|] == acts;
    }
  }

  ghost predicate AllowedOn(c: Setup, s: System, acts: seq<Act>)
    decreases |acts|
  {
    acts == [] || (Allowed(s, acts[0]) && AllowedOn(c, Step(c, s, acts[0]), acts[1..]))
  }

  lemma OneMoreAllowed(c: Setup, acts: seq<Act>, a: Act)
    requires AllAllowed(c, acts) && Allowed(Run(c, acts), a)
    ensures AllAllowed(c, acts + [a]) && Run(c, acts + [a]) == Step(c, Run(c, acts), a)
  {
    assert (acts + [a])[..|acts|] == acts;
  }

  lemma {:induction false} AllowedRuns(c: Setup, acts: seq<Act>, more: seq<Act>)
    requires AllAllowed(c, acts) && AllowedOn(c, Run(c, acts), more)
    ensures AllAllowed(c, acts + more)
    decreases |more|
  {
    if more == [] {
      assert acts + more == acts;
    } else {
      Regrouped(acts, more);
      NextAllowed(c, acts, more);
      AllowedRuns(c, acts + [more[0]], more[1..]);
    }
  }

  lemma Regrouped(acts: seq<Act>, more: seq<Act>)
    requires more != []
    ensures acts + [more[0]] + more[1..] == acts + more
  {
  }

  lemma NextAllowed(c: Setup, acts: seq<Act>, more: seq<Act>)
    requires more != [] && AllAllowed(c, acts) && AllowedOn(c, Run(c, acts), more)
    ensures AllAllowed(c, acts + [more[0]]) && AllowedOn(c, Run(c, acts + [more[0]]), more[1..])
  {
    OneMoreAllowed(c, acts, more[0]);
  }

  /** Allowed acts lead from s to s', with `rest` still to do. */
  ghost predicate Leads(c: Setup, s: System, acts: seq<Act>, s': System, rest: seq<Act>)
  {
    Onward(c, s, acts) == Onward(c, s', rest) && (AllowedOn(c, s', rest) ==> AllowedOn(c, s, acts))
  }

  lemma OneOn(c: Setup, s: System, a: Act, rest: seq<Act>)
    requires Allowed(s, a)
    ensures Leads(c, s, [a] + rest, Step(c, s, a), rest)
  {
    assert ([a] + rest)[1..] == rest;
  }

  /** Looking at the instance held changes nothing. */
  lemma Looks(c: Setup, s: System, now: int, rest: seq<Act>)
    requires s.pc == Ready && s.w.mem.instance.Some? && s.w.mem.instance.value.id == 0 && s.w.cloud == Renting(c).cloud
    ensures Leads(c, s, Look(now) + rest, s.(pc := Observed(ONE), missed := {}), rest)
  {
    var s1 := s.(pc := Sorting(ONE, 0, []), missed := {});
    assert ONE[0].ours && ONE[0].id == 0;
    assert SeenLabelled(ONE) == {0};
    assert Truthful(s.w.cloud, ONE);
    assert s.w.cloud.mine + {0} == s.w.cloud.mine;
    assert Step(c, s, List(ONE)) == s1;
    var s2 := s1.(pc := Sorting(ONE, 1, ONE));
    assert !AgainDue(s.w.mem, ONE[0], now) && [] + [ONE[0]] == ONE;
    assert Step(c, s1, Sort(now, true)) == s2;
    var s3 := s2.(pc := Orphans(ONE, ONE, 0));
    assert Step(c, s2, Choose(now, true)) == s3;
    var s4 := s3.(pc := Orphans(ONE, ONE, 1));
    assert Step(c, s3, Orphan(true)) == s4;
    var all := Look(now) + rest;
    assert all == [List(ONE)] + ([Sort(now, true)] + ([Choose(now, true)] + ([Orphan(true)] + ([Orphan(true)] + rest))));
    OneOn(c, s, List(ONE), [Sort(now, true)] + ([Choose(now, true)] + ([Orphan(true)] + ([Orphan(true)] + rest))));
    OneOn(c, s1, Sort(now, true), [Choose(now, true)] + ([Orphan(true)] + ([Orphan(true)] + rest)));
    OneOn(c, s2, Choose(now, true), [Orphan(true)] + ([Orphan(true)] + rest));
    OneOn(c, s3, Orphan(true), [Orphan(true)] + rest);
    OneOn(c, s4, Orphan(true), rest);
  }

  /** The world after the rent: one instance, held in memory and in the file. */
  function Renting(c: Setup): World
  {
    var state := State(Some(Held(0, 0, c.publicImage)), None, None, []);
    World(Cloud(map[0 := true], {0}, 1, {0}, {}), state, state)
  }

  lemma StoryDecides(c: Setup)
    ensures var s3 := Run(c, []).(pc := Observed([]));
            var s4 := s3.(pc := Acting(Rent, c.publicImage), log := [Entry(0, false, Some(Load(1, 0, 0)), None)]);
            && Step(c, s3, Judge(0, Some(Load(1, 0, 0)), Some(c.limits.minCredit), true)) == s4
            && Step(c, s4, Carry(Rented, true, 0, true)) == System(Renting(c), Ready, {}, s4.log, 0, 0)
  {
  }

  lemma StoryRents(c: Setup, rest: seq<Act>)
    ensures var first := [List([]), Choose(0, true), Orphan(true), Judge(0, Some(Load(1, 0, 0)), Some(c.limits.minCredit), true), Carry(Rented, true, 0, true)];
            Leads(c, Run(c, []), first + rest, System(Renting(c), Ready, {}, [Entry(0, false, Some(Load(1, 0, 0)), None)], 0, 0), rest)
  {
    var s0 := Run(c, []);
    var judge, carry := Judge(0, Some(Load(1, 0, 0)), Some(c.limits.minCredit), true), Carry(Rented, true, 0, true);
    assert SeenLabelled([]) == {};
    assert {} + SeenLabelled([]) == {};
    var s1 := s0.(pc := Sorting([], 0, []));
    assert Step(c, s0, List([])) == s1;
    var s2 := s0.(pc := Orphans([], [], 0));
    assert Step(c, s1, Choose(0, true)) == s2;
    var s3 := s0.(pc := Observed([]));
    assert Step(c, s2, Orphan(true)) == s3;
    var s4 := s3.(pc := Acting(Rent, c.publicImage), log := [Entry(0, false, Some(Load(1, 0, 0)), None)]);
    StoryDecides(c);
    var s5 := System(Renting(c), Ready, {}, s4.log, 0, 0);
    var first := [List([]), Choose(0, true), Orphan(true), judge, carry];
    assert first + rest == [List([])] + ([Choose(0, true)] + ([Orphan(true)] + ([judge] + ([carry] + rest))));
    OneOn(c, s0, List([]), [Choose(0, true)] + ([Orphan(true)] + ([judge] + ([carry] + rest))));
    OneOn(c, s1, Choose(0, true), [Orphan(true)] + ([judge] + ([carry] + rest)));
    OneOn(c, s2, Orphan(true), [judge] + ([carry] + rest));
    OneOn(c, s3, judge, [carry] + rest);
    OneOn(c, s4, carry, rest);
  }

  /** An idle look starts the timer and files it. */
  lemma StoryIdles(c: Setup, s: System, rest: seq<Act>)
    requires s.pc == Observed(ONE) && s.w == Renting(c) && 10 < c.limits.idle && 10 + c.limits.idle < c.limits.maxAge
    ensures var log := s.log + [Entry(10, true, Some(Load(0, 0, 0)), Some(10))];
            var state := Renting(c).mem.(idleSince := Some(10));
            Leads(c, s, [Judge(10, Some(Load(0, 0, 0)), None, true), Rest(10)] + rest,
                  System(World(s.w.cloud, state, state), Ready, s.missed, log, |s.log|, |s.log|), rest)
  {
    var judge := Judge(10, Some(Load(0, 0, 0)), None, true);
    assert RunningIn(ONE, 0) == Some(true);
    var s1 := Step(c, s, judge);
    assert s1.pc == Acting(Action.Keep, c.publicImage);
    OneOn(c, s, judge, [Rest(10)] + rest);
    OneOn(c, s1, Rest(10), rest);
    assert [judge, Rest(10)] + rest == [judge] + ([Rest(10)] + rest);
  }

  /** A busy look clears it in memory only, and the crash brings it back. */
  lemma StoryForgets(c: Setup, s: System, rest: seq<Act>)
    requires s.pc == Observed(ONE) && 10 < c.limits.idle && 10 + c.limits.idle < c.limits.maxAge
    requires s.w.mem == s.w.disk == Renting(c).mem.(idleSince := Some(10))
    ensures Leads(c, s, [Judge(20, Some(Load(1, 1, 0)), None, false), Rest(20), Crash] + rest,
                  s.(pc := Ready, log := s.log + [Entry(20, true, Some(Load(1, 1, 0)), None)], from := s.fileFrom), rest)
  {
    var judge := Judge(20, Some(Load(1, 1, 0)), None, false);
    assert RunningIn(ONE, 0) == Some(true);
    var s1 := Step(c, s, judge);
    assert s1.pc == Acting(Action.Keep, c.publicImage);
    var s2 := Step(c, s1, Rest(20));
    OneOn(c, s, judge, [Rest(20)] + ([Crash] + rest));
    OneOn(c, s1, Rest(20), [Crash] + rest);
    OneOn(c, s2, Crash, rest);
    assert [judge, Rest(20), Crash] + rest == [judge] + ([Rest(20)] + ([Crash] + rest));
  }

  const LOG := [Entry(0, false, Some(Load(1, 0, 0)), None), Entry(10, true, Some(Load(0, 0, 0)), Some(10)),
                Entry(20, true, Some(Load(1, 1, 0)), None)]

  /** Where the story ends: the timer is back in memory, with a busy decision after its start. */
  function Ending(c: Setup): System
  {
    var idle := Renting(c).mem.(idleSince := Some(10));
    System(World(Renting(c).cloud, idle, idle), Observed(ONE), {}, LOG, 1, 1)
  }

  function FirstTick(c: Setup): seq<Act>
  {
    [List([]), Choose(0, true), Orphan(true), Judge(0, Some(Load(1, 0, 0)), Some(c.limits.minCredit), true), Carry(Rented, true, 0, true)]
  }

  function IdleTick(rest: seq<Act>): seq<Act> { Look(10) + ([Judge(10, Some(Load(0, 0, 0)), None, true), Rest(10)] + rest) }

  function BusyTick(rest: seq<Act>): seq<Act> { Look(20) + ([Judge(20, Some(Load(1, 1, 0)), None, false), Rest(20), Crash] + rest) }

  lemma StoryIs(c: Setup, now: int)
    ensures Story(c) + Look(now) == FirstTick(c) + IdleTick(BusyTick(Look(now) + []))
  {
  }

  lemma StoryRuns(c: Setup, now: int)
    requires 10 < c.limits.idle && 10 + c.limits.idle < c.limits.maxAge
    ensures Run(c, Story(c) + Look(now)) == Ending(c) && AllAllowed(c, Story(c) + Look(now))
  {
    var two := IdleTick(BusyTick(Look(now) + []));
    StoryIs(c, now);
    StoryLeads(c, now);
    RunsOn(c, [], FirstTick(c) + two);
    AllowedRuns(c, [], FirstTick(c) + two);
    assert [] + (FirstTick(c) + two) == FirstTick(c) + two;
  }

  lemma StoryLeads(c: Setup, now: int)
    requires 10 < c.limits.idle && 10 + c.limits.idle < c.limits.maxAge
    ensures var acts := FirstTick(c) + IdleTick(BusyTick(Look(now) + []));
            Onward(c, Run(c, []), acts) == Ending(c) && AllowedOn(c, Run(c, []), acts)
  {
    var four := Look(now) + [];
    StoryEnds(c, now, IdleTick(BusyTick(four)), BusyTick(four), four);
    assert LOG[..1] == [Entry(0, false, Some(Load(1, 0, 0)), None)];
    StoryRents(c, IdleTick(BusyTick(four)));
  }

  /** With limits as New leaves them, times in seconds, a busy instance ends: in this run the crash revives the timer, and the first idle
      look after the limit destroys an instance that had work since. */
  lemma ForgottenClearEndsABusyInstance(c: Setup)
    requires 10 < c.limits.idle && 10 + c.limits.idle < c.limits.maxAge
    ensures var now := 10 + c.limits.idle; var s := Run(c, Story(c) + Look(now));
            && AllAllowed(c, Story(c) + Look(now))
            && s.pc == Observed(ONE) && OursAlive(s.w.cloud, 0) && Holds(s.w.mem, 0)
            && Decide(Observe(s.w, ONE, now, Some(Load(0, 0, 0)), None), s.w.mem.idleSince, c.limits).reason == IdleTooLong
            && BusySince(s.log, s.from)
  {
    StoryRuns(c, 10 + c.limits.idle);
    assert RunningIn(ONE, 0) == Some(true);
    assert Loaded(Ending(c).log[2]);
  }

  lemma StoryEnds(c: Setup, now: int, two: seq<Act>, three: seq<Act>, four: seq<Act>)
    requires 10 < c.limits.idle && 10 + c.limits.idle < c.limits.maxAge && four == Look(now) + []
    requires three == Look(20) + ([Judge(20, Some(Load(1, 1, 0)), None, false), Rest(20), Crash] + four)
    requires two == Look(10) + ([Judge(10, Some(Load(0, 0, 0)), None, true), Rest(10)] + three)
    ensures Leads(c, System(Renting(c), Ready, {}, LOG[..1], 0, 0), two, Ending(c), [])
  {
    assert LOG[..2] == LOG[..1] + [LOG[1]] && LOG[..2] + [LOG[2]] == LOG;
    var s1 := System(Renting(c), Ready, {}, LOG[..1], 0, 0);
    Looks(c, s1, 10, [Judge(10, Some(Load(0, 0, 0)), None, true), Rest(10)] + three);
    StoryIdles(c, s1.(pc := Observed(ONE)), three);
    var s2 := Ending(c).(pc := Ready, log := LOG[..2]);
    Looks(c, s2, 20, [Judge(20, Some(Load(1, 1, 0)), None, false), Rest(20), Crash] + four);
    StoryForgets(c, s2.(pc := Observed(ONE)), four);
    Looks(c, Ending(c).(pc := Ready), now, []);
  }

  // --- A second instance is rented ---------------------------------------------------------------

  function Create(c: Setup, now: int, outcome: RentOutcome): seq<Act>
  {
    [Judge(now, Some(Load(1, 0, 0)), Some(c.limits.minCredit), true), Carry(outcome, true, now, true)]
  }

  /** A tick that lists nothing and creates an instance, but reports an error. */
  function Loses(c: Setup, now: int): seq<Act>
  {
    [List([]), Choose(now, true), Orphan(true)] + Create(c, now, CreateFailed(true))
  }

  const BOTH := [Listed(1, true, true, None), Listed(0, true, false, None)]

  /** Two creates fail after creating, and the first instance dies. The cloud then lists both, neither
      is destroyed, and a third create succeeds. */
  function Lagging(c: Setup): seq<Act>
  {
    var d := c.limits.rentCooldown;
    Loses(c, 0) + [Dies(0)] + Loses(c, d)
    + [List(BOTH), Sort(2 * d, true), Sort(2 * d, true), Choose(2 * d, true), Orphan(false), Orphan(false), Orphan(true)]
    + Create(c, 2 * d, Rented)
  }

  /** Nothing held, nothing destroyed, no timer; the last rent failed at the given time, or never. */
  predicate Bare(s: System, failure: Option<int>)
  {
    s.pc == Ready && s.w.mem == s.w.disk == State(None, None, failure, []) && s.missed == {} && s.from == 0 && s.fileFrom == 0
  }

  function Failed(now: int): State { State(None, None, Some(now), []) }

  function Tried(now: int): Entry { Entry(now, false, Some(Load(1, 0, 0)), None) }

  predicate CooledDown(c: Setup, failure: Option<int>, now: int)
  {
    failure.None? || now - failure.value >= c.limits.rentCooldown
  }

  lemma LosesOne(c: Setup, s: System, failure: Option<int>, now: int, rest: seq<Act>)
    requires Bare(s, failure) && CooledDown(c, failure, now) && forall id :: !OursAlive(s.w.cloud, id)
    ensures var s' := System(World(Created(s.w.cloud, true), Failed(now), Failed(now)), Ready, {}, s.log + [Tried(now)], 0, 0);
            Leads(c, s, Loses(c, now) + rest, s', rest)
  {
    var judge, carry := Create(c, now, CreateFailed(true))[0], Create(c, now, CreateFailed(true))[1];
    assert SeenLabelled([]) == {};
    assert s.w.cloud.mine + {} == s.w.cloud.mine;
    var s1 := s.(pc := Sorting([], 0, []));
    assert Step(c, s, List([])) == s1;
    var s2 := s.(pc := Orphans([], [], 0));
    assert Step(c, s1, Choose(now, true)) == s2;
    var s3 := s.(pc := Observed([]));
    assert Step(c, s2, Orphan(true)) == s3;
    var s4 := s3.(pc := Acting(Rent, c.publicImage), log := s.log + [Tried(now)]);
    assert Step(c, s3, judge) == s4;
    var s5 := System(World(Created(s.w.cloud, true), Failed(now), Failed(now)), Ready, {}, s.log + [Tried(now)], 0, 0);
    assert Step(c, s4, carry) == s5;
    assert Loses(c, now) + rest == [List([])] + ([Choose(now, true)] + ([Orphan(true)] + ([judge] + ([carry] + rest))));
    OneOn(c, s, List([]), [Choose(now, true)] + ([Orphan(true)] + ([judge] + ([carry] + rest))));
    OneOn(c, s1, Choose(now, true), [Orphan(true)] + ([judge] + ([carry] + rest)));
    OneOn(c, s2, Orphan(true), [judge] + ([carry] + rest));
    OneOn(c, s3, judge, [carry] + rest);
    OneOn(c, s4, carry, rest);
  }

  /** Listing both: neither is ours to keep, and neither destroy works. */
  lemma LooksAtBoth(c: Setup, s: System, failure: Option<int>, now: int, rest: seq<Act>)
    requires Bare(s, failure) && s.w.cloud.born == map[0 := true, 1 := true] && s.w.cloud.alive == {1} && s.w.cloud.mine == {0, 1}
    ensures var acts := [List(BOTH), Sort(now, true), Sort(now, true), Choose(now, true), Orphan(false), Orphan(false), Orphan(true)];
            var cloud := s.w.cloud.(called := s.w.cloud.called + {1} + {0});
            Leads(c, s, acts + rest, s.(w := s.w.(cloud := cloud), pc := Observed(BOTH), missed := {1, 0}), rest)
  {
    assert BOTH[0].id == 1 && BOTH[1].id == 0 && BOTH[0].ours && BOTH[1].ours;
    assert Truthful(s.w.cloud, BOTH);
    assert SeenLabelled(BOTH) == {0, 1};
    var s1 := s.(pc := Sorting(BOTH, 0, []));
    assert s.w.cloud.mine + {0, 1} == s.w.cloud.mine;
    assert Step(c, s, List(BOTH)) == s1;
    var s2 := s.(pc := Sorting(BOTH, 1, [BOTH[0]]));
    assert [] + [BOTH[0]] == [BOTH[0]];
    assert Step(c, s1, Sort(now, true)) == s2;
    var s3 := s.(pc := Sorting(BOTH, 2, BOTH));
    assert [BOTH[0]] + [BOTH[1]] == BOTH;
    assert Step(c, s2, Sort(now, true)) == s3;
    var s4 := s.(pc := Orphans(BOTH, BOTH, 0));
    assert Step(c, s3, Choose(now, true)) == s4;
    MissesBoth(c, s, s4);
    var after := [Orphan(false)] + ([Orphan(false)] + ([Orphan(true)] + rest));
    var acts := [List(BOTH), Sort(now, true), Sort(now, true), Choose(now, true), Orphan(false), Orphan(false), Orphan(true)];
    assert acts + rest == [List(BOTH)] + ([Sort(now, true)] + ([Sort(now, true)] + ([Choose(now, true)] + after)));
    OneOn(c, s, List(BOTH), [Sort(now, true)] + ([Sort(now, true)] + ([Choose(now, true)] + after)));
    OneOn(c, s1, Sort(now, true), [Sort(now, true)] + ([Choose(now, true)] + after));
    OneOn(c, s2, Sort(now, true), [Choose(now, true)] + after);
    OneOn(c, s3, Choose(now, true), after);
    OneOn(c, s4, Orphan(false), [Orphan(false)] + ([Orphan(true)] + rest));
    OneOn(c, Step(c, s4, Orphan(false)), Orphan(false), [Orphan(true)] + rest);
    OneOn(c, Step(c, Step(c, s4, Orphan(false)), Orphan(false)), Orphan(true), rest);
  }

  lemma MissesBoth(c: Setup, s: System, s4: System)
    requires s.w.mem.instance.None? && s.missed == {} && s4 == s.(pc := Orphans(BOTH, BOTH, 0))
    ensures Step(c, Step(c, Step(c, s4, Orphan(false)), Orphan(false)), Orphan(true))
         == s.(w := s.w.(cloud := s.w.cloud.(called := s.w.cloud.called + {1} + {0})), pc := Observed(BOTH), missed := {1, 0})
  {
    assert {} + {1} == {1} && {1} + {0} == {1, 0};
  }

  lemma RentsAnother(c: Setup, s: System, failure: Option<int>, now: int)
    requires s.pc == Observed(BOTH) && s.w.mem == State(None, None, failure, []) && CooledDown(c, failure, now)
    ensures Onward(c, s, Create(c, now, Rented)).w.cloud == Created(s.w.cloud, true) && AllowedOn(c, s, Create(c, now, Rented))
  {
    var judge, carry := Create(c, now, Rented)[0], Create(c, now, Rented)[1];
    var s1 := Step(c, s, judge);
    assert s1.pc == Acting(Rent, c.publicImage);
    assert Create(c, now, Rented) == [judge] + ([carry] + []);
    OneOn(c, s, judge, [carry] + []);
    OneOn(c, s1, carry, []);
  }

  /** So a run with truthful listings ends with two labelled instances alive. */
  lemma LaggingListingEndsWithTwo(c: Setup)
    requires c.limits.rentCooldown > 0
    ensures AllAllowed(c, Lagging(c)) && OursAlive(Run(c, Lagging(c)).w.cloud, 1) && OursAlive(Run(c, Lagging(c)).w.cloud, 2)
  {
    var d := c.limits.rentCooldown;
    var four := Create(c, 2 * d, Rented);
    var look := [List(BOTH), Sort(2 * d, true), Sort(2 * d, true), Choose(2 * d, true), Orphan(false), Orphan(false), Orphan(true)];
    var three := look + four;
    var two := Loses(c, d) + three;
    assert Lagging(c) == Loses(c, 0) + ([Dies(0)] + two);
    RunsOn(c, [], Lagging(c));
    assert [] + Lagging(c) == Lagging(c);
    LaggingLeads(c, two, three, four);
    AllowedRuns(c, [], Lagging(c));
  }

  lemma LaggingLeads(c: Setup, two: seq<Act>, three: seq<Act>, four: seq<Act>)
    requires c.limits.rentCooldown > 0
    requires var d := c.limits.rentCooldown;
             && four == Create(c, 2 * d, Rented) && two == Loses(c, d) + three
             && three == [List(BOTH), Sort(2 * d, true), Sort(2 * d, true), Choose(2 * d, true), Orphan(false), Orphan(false), Orphan(true)] + four
    ensures var all := Loses(c, 0) + ([Dies(0)] + two); var s0 := Run(c, []);
            AllowedOn(c, s0, all) && OursAlive(Onward(c, s0, all).w.cloud, 1) && OursAlive(Onward(c, s0, all).w.cloud, 2)
  {
    var d := c.limits.rentCooldown;
    var s0 := Run(c, []);
    LosesOne(c, s0, None, 0, [Dies(0)] + two);
    var cloud1 := Created(EMPTY_CLOUD, true);
    assert {} + {0} == {0};
    var s1 := System(World(cloud1, Failed(0), Failed(0)), Ready, {}, s0.log + [Tried(0)], 0, 0);
    var dead := cloud1.(alive := {});
    assert cloud1.alive - {0} == {};
    var s2 := s1.(w := s1.w.(cloud := dead));
    assert Step(c, s1, Dies(0)) == s2;
    OneOn(c, s1, Dies(0), two);
    LosesOne(c, s2, Some(0), d, three);
    var s3 := System(World(Created(dead, true), Failed(d), Failed(d)), Ready, {}, s2.log + [Tried(d)], 0, 0);
    assert Created(dead, true).born == map[0 := true, 1 := true];
    LooksAtBoth(c, s3, Some(d), 2 * d, four);
    var cloud4 := s3.w.cloud.(called := s3.w.cloud.called + {1} + {0});
    RentsAnother(c, s3.(w := s3.w.(cloud := cloud4), pc := Observed(BOTH), missed := {1, 0}), Some(d), 2 * d);
  }
}
