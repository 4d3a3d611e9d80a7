/** The per-key token bucket with lazy sweeping (ratelimit.go); times are seconds. */
module RateLimit {
  import opened Prelude

  type Key = string

  datatype Bucket = Bucket(tokens: real, last: real)

  datatype State = State(buckets: map<Key, Bucket>, sweptAt: real)

  /** newLimiter: burst tokens, all of them again after `per` seconds. */
  datatype Limits = Limits(burst: real, rate: real)
  {
    predicate Valid() { burst >= 1.0 && rate > 0.0 }

    function Idle(): real
      requires Valid()
    {
      burst / rate + 60.0
    }
  }

  function Lesser(a: real, b: real): real { if a < b then a else b }

  /** The tokens that drip in over a time. */
  function Gain(l: Limits, dt: real): real { dt * l.rate }

  /** What a bucket holds at time t, were it touched then. */
  function Refilled(l: Limits, b: Bucket, t: real): real
  {
    Lesser(l.burst, b.tokens + Gain(l, t - b.last))
  }

  /** The tokens a request at time t would find. */
  function Level(l: Limits, s: State, key: Key, t: real): real
  {
    if key in s.buckets then Refilled(l, s.buckets[key], t) else l.burst
  }

  function Touched(l: Limits, s: State, key: Key, now: real): State
  {
    s.(buckets := s.buckets[key := Bucket(Level(l, s, key, now), now)])
  }

  function Swept(l: Limits, s: State, now: real): State
    requires l.Valid()
  {
    if now - s.sweptAt < 60.0 then s
    else State(map k | k in s.buckets && now - s.buckets[k].last <= l.Idle() :: s.buckets[k], now)
  }

  /** One request; `sweep` is false for the limiter that never deletes. */
  function After(l: Limits, s: State, key: Key, now: real, sweep: bool): State
    requires l.Valid()
  {
    var touched := Touched(l, s, key, now);
    var kept := if sweep then Swept(l, touched, now) else touched;
    if Allowed(l, s, key, now) then kept.(buckets := kept.buckets[key := Bucket(Level(l, s, key, now) - 1.0, now)]) else kept
  }

  predicate Allowed(l: Limits, s: State, key: Key, now: real) { Level(l, s, key, now) >= 1.0 }

  class Limiter {
    const limits: Limits
    var buckets: map<Key, Bucket>
    var sweptAt: real

    constructor (burst: nat, per: real, now: real)
      requires burst > 0 && per > 0.0
      ensures limits.Valid() && limits.burst == burst as real && limits.rate * per == burst as real
      ensures Snapshot() == State(map[], now)
    {
      limits := Limits(burst as real, burst as real / per);
      buckets, sweptAt := map[], now;
    }

    ghost function Snapshot(): State
      reads this
    {
      State(buckets, sweptAt)
    }

    method Allow(key: Key, now: real) returns (ok: bool, wait: real)
      requires limits.Valid()
      modifies this
      ensures ok == Allowed(limits, old(Snapshot()), key, now)
      ensures Snapshot() == After(limits, old(Snapshot()), key, now, true)
      ensures wait == if ok then 0.0 else (1.0 - Level(limits, old(Snapshot()), key, now)) / limits.rate
    {
      var b: Bucket;
      if key !in buckets {
        b := Bucket(limits.burst, now);
      } else {
        b := buckets[key];
        b := Bucket(Lesser(limits.burst, b.tokens + Gain(limits, now - b.last)), now);
      }
      buckets := buckets[key := b];
      MaybeSweep(now);
      if b.tokens >= 1.0 {
        buckets := buckets[key := b.(tokens := b.tokens - 1.0)];
        return true, 0.0;
      }
      return false, (1.0 - b.tokens) / limits.rate;
    }

    method MaybeSweep(now: real)
      requires limits.Valid()
      modifies this
      ensures Snapshot() == Swept(limits, old(Snapshot()), now)
    {
      if now - sweptAt < 60.0 {
        return;
      }
      sweptAt := now;
      var idle := limits.burst / limits.rate + 60.0;
      var rest := buckets.Keys;
      while rest != {}
        invariant rest <= old(buckets).Keys && sweptAt == now
        invariant forall k :: k in buckets <==>
                    k in old(buckets) && (k in rest || now - old(buckets)[k].last <= idle)
        invariant forall k :: k in buckets ==> buckets[k] == old(buckets)[k]
        decreases rest
      {
        var k :| k in rest;
        rest := rest - {k};
        if now - buckets[k].last > idle {
          buckets := buckets - {k};
        }
      }
    }
  }

  // --- What sweeping changes: nothing -----------------------------------------------------

  /** Tokens lie between 0 and burst, and no bucket was touched in the future. */
  ghost predicate Fine(l: Limits, s: State, now: real)
  {
    forall k :: k in s.buckets ==> 0.0 <= s.buckets[k].tokens <= l.burst && s.buckets[k].last <= now
  }

  /** From now on both states answer alike. */
  ghost predicate Alike(l: Limits, a: State, b: State, now: real)
  {
    forall k, t :: t >= now ==> Level(l, a, k, t) == Level(l, b, k, t)
  }

  lemma GainGrows(l: Limits, a: real, b: real)
    requires l.Valid() && a <= b
    ensures Gain(l, a) <= Gain(l, b)
    ensures a < b ==> Gain(l, a) < Gain(l, b)
  {
  }

  lemma GainAdds(l: Limits, a: real, b: real)
    ensures Gain(l, a + b) == Gain(l, a) + Gain(l, b) && Gain(l, 0.0) == 0.0
  {
  }

  /** The time x / rate is worth x tokens. */
  lemma GainOf(l: Limits, x: real)
    requires l.Valid()
    ensures Gain(l, x / l.rate) == x
  {
  }

  /** A bucket idle that long is full again. */
  lemma IdleIsFull(l: Limits, b: Bucket, t: real)
    requires l.Valid() && b.tokens >= 0.0 && t - b.last > l.Idle()
    ensures Refilled(l, b, t) == l.burst
  {
    GainOf(l, l.burst);
    GainGrows(l, l.burst / l.rate, t - b.last);
  }

  lemma SweepKeepsLevels(l: Limits, s: State, now: real)
    requires l.Valid() && Fine(l, s, now)
    ensures Alike(l, s, Swept(l, s, now), now) && Fine(l, Swept(l, s, now), now)
  {
    forall k, t | t >= now
      ensures Level(l, s, k, t) == Level(l, Swept(l, s, now), k, t)
    {
      if k in s.buckets && now - s.buckets[k].last > l.Idle() {
        IdleIsFull(l, s.buckets[k], t);
      }
    }
  }

  lemma LevelInRange(l: Limits, s: State, key: Key, now: real)
    requires l.Valid() && Fine(l, s, now)
    ensures 0.0 <= Level(l, s, key, now) <= l.burst
  {
    if key in s.buckets {
      GainAdds(l, 0.0, 0.0);
      GainGrows(l, 0.0, now - s.buckets[key].last);
    }
  }

  /** The bucket a request leaves. */
  function Left(l: Limits, s: State, key: Key, now: real): Bucket
  {
    Bucket(Level(l, s, key, now) - if Allowed(l, s, key, now) then 1.0 else 0.0, now)
  }

  /** A request leaves its own bucket as it should be, spared by the sweep, and all others alike. */
  lemma OneRequest(l: Limits, s: State, key: Key, now: real, sweep: bool)
    requires l.Valid() && Fine(l, s, now)
    ensures var s' := After(l, s, key, now, sweep);
            && Fine(l, s', now) && key in s'.buckets && s'.buckets[key] == Left(l, s, key, now)
            && forall k, t :: t >= now && k != key ==> Level(l, s', k, t) == Level(l, s, k, t)
  {
    var touched := Touched(l, s, key, now);
    LevelInRange(l, s, key, now);
    assert Fine(l, touched, now);
    SweepKeepsLevels(l, touched, now);
    IdleIsPositive(l);
    var kept := if sweep then Swept(l, touched, now) else touched;
    assert key in kept.buckets && kept.buckets[key] == touched.buckets[key];
    forall k, t | t >= now && k != key
      ensures Level(l, After(l, s, key, now, sweep), k, t) == Level(l, s, k, t)
    {
      assert Level(l, kept, k, t) == Level(l, touched, k, t);
    }
  }

  lemma IdleIsPositive(l: Limits)
    requires l.Valid()
    ensures l.Idle() > 0.0
  {
  }

  datatype Request = Request(key: Key, at: real)

  ghost predicate InOrder(reqs: seq<Request>, start: real)
  {
    && (forall i :: 0 <= i < |reqs| ==> reqs[i].at >= start)
    && (forall i, j :: 0 <= i < j < |reqs| ==> reqs[i].at <= reqs[j].at)
  }

  function Run(l: Limits, start: real, reqs: seq<Request>, sweep: bool): State
    requires l.Valid()
  {
    if reqs == [] then State(map[], start)
    else
      var r := reqs[|reqs| - 1];
      After(l, Run(l, start, reqs[..|reqs| - 1], sweep), r.key, r.at, sweep)
  }

  function Last(start: real, reqs: seq<Request>): real { if reqs == [] then start else reqs[|reqs| - 1].at }

  lemma {:induction false} RunsAgree(l: Limits, start: real, reqs: seq<Request>)
    requires l.Valid() && InOrder(reqs, start)
    ensures var a, b, now := Run(l, start, reqs, true), Run(l, start, reqs, false), Last(start, reqs);
            Fine(l, a, now) && Fine(l, b, now) && Alike(l, a, b, now)
  {
    if reqs != [] {
      var init, r := reqs[..|reqs| - 1], reqs[|reqs| - 1];
      RunsAgree(l, start, init);
      var a, b := Run(l, start, init, true), Run(l, start, init, false);
      assert Last(start, init) <= r.at;
      OneRequest(l, a, r.key, r.at, true);
      OneRequest(l, b, r.key, r.at, false);
      assert Level(l, a, r.key, r.at) == Level(l, b, r.key, r.at);
    }
  }

  /** Whatever was asked before, the sweeping limiter decides as one that never deletes. */
  lemma SweepingChangesNothing(l: Limits, start: real, reqs: seq<Request>, key: Key, now: real)
    requires l.Valid() && InOrder(reqs, start) && now >= Last(start, reqs)
    ensures Allowed(l, Run(l, start, reqs, true), key, now) == Allowed(l, Run(l, start, reqs, false), key, now)
  {
    RunsAgree(l, start, reqs);
  }

  // --- How much gets through ------------------------------------------------------------------

  /** The admitted requests of one key among the last ones, from index i on. */
  function Admitted(l: Limits, start: real, reqs: seq<Request>, i: nat, key: Key): nat
    requires l.Valid()
  {
    if |reqs| <= i then 0
    else
      var init, r := reqs[..|reqs| - 1], reqs[|reqs| - 1];
      Admitted(l, start, init, i, key) +
      if r.key == key && Allowed(l, Run(l, start, init, true), key, r.at) then 1 else 0
  }

  lemma RefillIsLinear(l: Limits, s: State, key: Key, a: real, b: real)
    requires l.Valid() && a <= b
    ensures Level(l, s, key, b) <= Level(l, s, key, a) + Gain(l, b - a)
  {
    GainAdds(l, 0.0, 0.0);
    GainGrows(l, 0.0, b - a);
    if key in s.buckets {
      GainAdds(l, a - s.buckets[key].last, b - a);
      assert (a - s.buckets[key].last) + (b - a) == b - s.buckets[key].last;
    }
  }

  /** What request j costs: an admitted one takes a token, so admissions and level together grow by
      no more than what drips in. */
  lemma OneAdmission(l: Limits, s: State, r: Request, key: Key, before: real)
    requires l.Valid() && Fine(l, s, before) && before <= r.at
    ensures Level(l, After(l, s, r.key, r.at, true), key, r.at) + (if r.key == key && Allowed(l, s, key, r.at) then 1.0 else 0.0)
         == Level(l, s, key, r.at)
  {
    assert Fine(l, s, r.at);
    OneRequest(l, s, r.key, r.at, true);
    LevelInRange(l, s, key, r.at);
    GainAdds(l, 0.0, 0.0);
  }

  lemma {:induction false} AdmittedPlusLevel(l: Limits, start: real, reqs: seq<Request>, i: nat, key: Key)
    requires l.Valid() && InOrder(reqs, start) && i < |reqs|
    ensures Admitted(l, start, reqs, i, key) as real + Level(l, Run(l, start, reqs, true), key, Last(start, reqs))
         <= l.burst + Gain(l, Last(start, reqs) - reqs[i].at)
  {
    var init, r := reqs[..|reqs| - 1], reqs[|reqs| - 1];
    var at := Last(start, init);
    RunsAgree(l, start, init);
    var s := Run(l, start, init, true);
    OneAdmission(l, s, r, key, at);
    if |init| <= i {
      assert Fine(l, s, r.at);
      LevelInRange(l, s, key, r.at);
      GainAdds(l, 0.0, 0.0);
    } else {
      AdmittedPlusLevel(l, start, init, i, key);
      RefillIsLinear(l, s, key, at, r.at);
      GainAdds(l, at - reqs[i].at, r.at - at);
      assert (at - reqs[i].at) + (r.at - at) == r.at - reqs[i].at;
    }
  }

  /** In any window of length T at most burst + rate * T requests of a key are admitted. */
  lemma WindowBound(l: Limits, start: real, reqs: seq<Request>, i: nat, key: Key, T: real)
    requires l.Valid() && InOrder(reqs, start) && i < |reqs| && Last(start, reqs) - reqs[i].at <= T
    ensures Admitted(l, start, reqs, i, key) as real <= l.burst + Gain(l, T)
  {
    AdmittedPlusLevel(l, start, reqs, i, key);
    RunsAgree(l, start, reqs);
    LevelInRange(l, Run(l, start, reqs, true), key, Last(start, reqs));
    GainGrows(l, Last(start, reqs) - reqs[i].at, T);
  }

  /** The wait a refusal names is exact: with no request in between, the next one is admitted from
      then on and not before. */
  lemma WaitIsExact(l: Limits, s: State, key: Key, now: real, t: real)
    requires l.Valid() && Fine(l, s, now) && !Allowed(l, s, key, now) && t >= now
    ensures var wait := (1.0 - Level(l, s, key, now)) / l.rate;
            Allowed(l, After(l, s, key, now, true), key, t) <==> t >= now + wait
  {
    OneRequest(l, s, key, now, true);
    var short := 1.0 - Level(l, s, key, now);
    GainOf(l, short);
    if t >= now + short / l.rate {
      GainGrows(l, short / l.rate, t - now);
    } else {
      GainGrows(l, t - now, short / l.rate);
    }
  }
}
