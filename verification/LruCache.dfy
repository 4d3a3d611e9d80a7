/** The preview cache (cache.go): a recency list and an index by id, entries expiring after a while. */
module LruCache {
  import opened Prelude

  type Id = string
  type Preview = int

  datatype Entry = Entry(id: Id, value: Preview, expires: int)

  // --- What get and put do, front of the list first ---------------------------------------

  function Pos(s: seq<Entry>, id: Id): (p: nat)
    ensures p <= |s| && (p < |s| ==> s[p].id == id) && forall k :: 0 <= k < p ==> s[k].id != id
  {
    if s == [] || s[0].id == id then 0 else 1 + Pos(s[1..], id)
  }

  predicate Has(s: seq<Entry>, id: Id) { Pos(s, id) < |s| }

  function Without(s: seq<Entry>, p: nat): seq<Entry>
    requires p < |s|
  {
    s[..p] + s[p + 1..]
  }

  function Got(s: seq<Entry>, id: Id, now: int): Option<Preview>
  {
    if Has(s, id) && now < s[Pos(s, id)].expires then Some(s[Pos(s, id)].value) else None
  }

  function AfterGet(s: seq<Entry>, id: Id, now: int): seq<Entry>
  {
    var p := Pos(s, id);
    if p == |s| then s
    else if now >= s[p].expires then Without(s, p)
    else [s[p]] + Without(s, p)
  }

  function AfterPut(s: seq<Entry>, id: Id, v: Preview, expires: int, max: nat): seq<Entry>
  {
    var p := Pos(s, id);
    if p < |s| then [Entry(id, v, expires)] + Without(s, p)
    else
      var grown := [Entry(id, v, expires)] + s;
      grown[..Min(|grown|, max)]
  }

  // --- The object -----------------------------------------------------------------------

  /** What an element carries besides its id. */
  datatype Payload = Payload(value: Preview, expires: int)

  /** List and index hold the same ids, none twice. */
  ghost predicate Agree(ll: seq<Id>, byId: map<Id, Payload>)
  {
    Distinct(ll) && (forall i :: 0 <= i < |ll| ==> ll[i] in byId) && (forall id :: id in byId ==> id in ll)
  }

  function Shown(ll: seq<Id>, byId: map<Id, Payload>): (s: seq<Entry>)
    requires forall i :: 0 <= i < |ll| ==> ll[i] in byId
    ensures |s| == |ll| && forall i :: 0 <= i < |s| ==> s[i] == Entry(ll[i], byId[ll[i]].value, byId[ll[i]].expires)
  {
    seq(|ll|, i requires 0 <= i < |ll| => Entry(ll[i], byId[ll[i]].value, byId[ll[i]].expires))
  }

  lemma PosOf(ll: seq<Id>, byId: map<Id, Payload>, p: nat)
    requires Agree(ll, byId) && p < |ll|
    ensures Pos(Shown(ll, byId), ll[p]) == p
  {
  }

  lemma Absent(ll: seq<Id>, byId: map<Id, Payload>, id: Id)
    requires Agree(ll, byId) && id !in byId
    ensures Pos(Shown(ll, byId), id) == |ll|
  {
  }

  lemma Removed(ll: seq<Id>, byId: map<Id, Payload>, p: nat)
    requires Agree(ll, byId) && p < |ll|
    ensures Agree(ll[..p] + ll[p + 1..], byId - {ll[p]})
    ensures Shown(ll[..p] + ll[p + 1..], byId - {ll[p]}) == Without(Shown(ll, byId), p)
  {
    RemovedAgree(ll, byId, p);
    var rest := ll[..p] + ll[p + 1..];
    var shown, without := Shown(rest, byId - {ll[p]}), Without(Shown(ll, byId), p);
    forall i | 0 <= i < |rest|
      ensures shown[i] == without[i]
    {
      assert rest[i] == ll[if i < p then i else i + 1];
    }
  }

  lemma RemovedAgree(ll: seq<Id>, byId: map<Id, Payload>, p: nat)
    requires Agree(ll, byId) && p < |ll|
    ensures Agree(ll[..p] + ll[p + 1..], byId - {ll[p]})
  {
    var rest := ll[..p] + ll[p + 1..];
    assert forall i :: 0 <= i < |rest| ==> rest[i] == ll[if i < p then i else i + 1];
    forall id | id in byId - {ll[p]}
      ensures id in rest
    {
      var i :| 0 <= i < |ll| && ll[i] == id;
      assert rest[if i < p then i else i - 1] == id;
    }
  }

  lemma Pushed(ll: seq<Id>, byId: map<Id, Payload>, id: Id, payload: Payload)
    requires Agree(ll, byId) && id !in byId
    ensures Agree([id] + ll, byId[id := payload])
    ensures Shown([id] + ll, byId[id := payload]) == [Entry(id, payload.value, payload.expires)] + Shown(ll, byId)
  {
  }

  lemma MovedToFront(ll: seq<Id>, byId: map<Id, Payload>, p: nat, payload: Payload)
    requires Agree(ll, byId) && p < |ll|
    ensures var ll', byId' := [ll[p]] + (ll[..p] + ll[p + 1..]), byId[ll[p] := payload];
            Agree(ll', byId') && Shown(ll', byId') == [Entry(ll[p], payload.value, payload.expires)] + Without(Shown(ll, byId), p)
  {
    Removed(ll, byId, p);
    Pushed(ll[..p] + ll[p + 1..], byId - {ll[p]}, ll[p], payload);
    assert (byId - {ll[p]})[ll[p] := payload] == byId[ll[p] := payload];
  }

  lemma LastRemoved(ll: seq<Id>, byId: map<Id, Payload>)
    requires Agree(ll, byId) && ll != []
    ensures var n := |ll| - 1;
            Agree(ll[..n], byId - {ll[n]}) && Shown(ll[..n], byId - {ll[n]}) == Shown(ll, byId)[..n]
  {
    var n := |ll| - 1;
    Removed(ll, byId, n);
    assert ll[..n] + ll[n + 1..] == ll[..n];
  }

  /** An element is its id in the list and its value and expiry in the index. */
  class Cache {
    const max: nat
    const ttl: int
    var ll: seq<Id>
    var byId: map<Id, Payload>

    ghost predicate Valid()
      reads this
    {
      |ll| <= max && Agree(ll, byId)
    }

    ghost function Snapshot(): seq<Entry>
      requires Valid()
      reads this
    {
      Shown(ll, byId)
    }

    constructor (max: nat, ttl: int)
      ensures Valid() && Snapshot() == [] && this.max == max && this.ttl == ttl
    {
      this.max, this.ttl := max, ttl;
      ll, byId := [], map[];
    }

    method Place(id: Id) returns (p: nat)
      requires Valid() && id in byId
      ensures p < |ll| && ll[p] == id
    {
      p := 0;
      while ll[p] != id
        invariant p < |ll| && id in ll[p..]
        decreases |ll| - p
      {
        assert ll[p..] == [ll[p]] + ll[p + 1..];
        p := p + 1;
      }
    }

    method Get(id: Id, now: int) returns (v: Option<Preview>)
      requires Valid()
      modifies this
      ensures Valid() && Snapshot() == AfterGet(old(Snapshot()), id, now) && v == Got(old(Snapshot()), id, now)
    {
      if id !in byId {
        Absent(ll, byId, id);
        return None;
      }
      var el := byId[id];
      var p := Place(id);
      PosOf(ll, byId, p);
      if now >= el.expires {
        Removed(ll, byId, p);
        ll := ll[..p] + ll[p + 1..];
        byId := byId - {id};
        return None;
      }
      MovedToFront(ll, byId, p, el);
      assert byId[id := el] == byId;
      ll := [id] + (ll[..p] + ll[p + 1..]);
      return Some(el.value);
    }

    method Put(id: Id, v: Preview, now: int)
      requires Valid()
      modifies this
      ensures Valid() && Snapshot() == AfterPut(old(Snapshot()), id, v, now + ttl, max)
    {
      if id in byId {
        Replace(id, v, now + ttl);
      } else {
        Insert(id, v, now + ttl);
      }
    }

    method Replace(id: Id, v: Preview, expires: int)
      requires Valid() && id in byId
      modifies this
      ensures Valid() && Snapshot() == AfterPut(old(Snapshot()), id, v, expires, max)
    {
      var el := Payload(v, expires);
      var p := Place(id);
      PosOf(ll, byId, p);
      MovedToFront(ll, byId, p, el);
      byId := byId[id := el];
      ll := [id] + (ll[..p] + ll[p + 1..]);
    }

    method Insert(id: Id, v: Preview, expires: int)
      requires Valid() && id !in byId
      modifies this
      ensures Valid() && Snapshot() == AfterPut(old(Snapshot()), id, v, expires, max)
    {
      var el := Payload(v, expires);
      Absent(ll, byId, id);
      Pushed(ll, byId, id, el);
      ghost var grown := [Entry(id, el.value, el.expires)] + Shown(ll, byId);
      ll := [id] + ll;
      byId := byId[id := el];
      Trim(grown);
    }

    /** The loop that drops elements at the back. */
    method Trim(ghost full: seq<Entry>)
      requires Agree(ll, byId) && Shown(ll, byId) == full
      modifies this
      ensures Valid() && Snapshot() == full[..Min(|full|, max)]
    {
      while |ll| > max
        invariant Min(|full|, max) <= |ll| <= |full| && Agree(ll, byId) && Shown(ll, byId) == full[..|ll|]
        decreases |ll|
      {
        DropLast(full);
      }
    }

    method DropLast(ghost full: seq<Entry>)
      requires Agree(ll, byId) && ll != [] && |ll| <= |full| && Shown(ll, byId) == full[..|ll|]
      modifies this
      ensures |ll| == old(|ll|) - 1 && Agree(ll, byId) && Shown(ll, byId) == full[..|ll|]
    {
      LastRemoved(ll, byId);
      assert full[..|ll|][..|ll| - 1] == full[..|ll| - 1];
      var last := ll[|ll| - 1];
      ll := ll[..|ll| - 1];
      byId := byId - {last};
    }
  }

  // --- Runs -----------------------------------------------------------------------------------

  datatype Op = Put(id: Id, value: Preview, at: int) | Get(id: Id, at: int)

  function Run(max: nat, ttl: int, ops: seq<Op>): seq<Entry>
  {
    if ops == [] then []
    else
      var s := Run(max, ttl, ops[..|ops| - 1]);
      match ops[|ops| - 1]
      case Put(id, v, at) => AfterPut(s, id, v, at + ttl, max)
      case Get(id, at) => AfterGet(s, id, at)
  }

  ghost predicate InOrder(ops: seq<Op>) { forall i, j :: 0 <= i < j < |ops| ==> ops[i].at <= ops[j].at }

  datatype Stored = Stored(value: Preview, at: int)

  /** The last put of an id. */
  function LatestPut(ops: seq<Op>, id: Id): Option<Stored>
  {
    if ops == [] then None
    else
      var last := ops[|ops| - 1];
      if last.Put? && last.id == id then Some(Stored(last.value, last.at)) else LatestPut(ops[..|ops| - 1], id)
  }

  /** The id an operation used: the one it put, or the one it hit. */
  function Used(max: nat, ttl: int, ops: seq<Op>): Option<Id>
    requires ops != []
  {
    match ops[|ops| - 1]
    case Put(id, _, _) => Some(id)
    case Get(id, at) => if Got(Run(max, ttl, ops[..|ops| - 1]), id, at).Some? then Some(id) else None
  }

  /** The other ids used since an id was used last. */
  function Since(max: nat, ttl: int, ops: seq<Op>, id: Id): set<Id>
  {
    if ops == [] then {}
    else
      var used := Used(max, ttl, ops);
      var before := Since(max, ttl, ops[..|ops| - 1], id);
      if used == Some(id) then {} else if used.Some? then before + {used.value} else before
  }

  function Ids(s: seq<Entry>): set<Id> { set i | 0 <= i < |s| :: s[i].id }

  ghost predicate IdsDistinct(s: seq<Entry>) { forall i, j :: 0 <= i < j < |s| ==> s[i].id != s[j].id }

  /** An entry is what its id was put with last, and what lies before it was used since. */
  ghost predicate EntryOk(max: nat, ttl: int, ops: seq<Op>, s: seq<Entry>, i: nat)
    requires i < |s|
  {
    && LatestPut(ops, s[i].id).Some?
    && s[i].value == LatestPut(ops, s[i].id).value.value && s[i].expires == LatestPut(ops, s[i].id).value.at + ttl
    && forall k :: 0 <= k < i ==> s[k].id in Since(max, ttl, ops, s[i].id)
  }

  /** An id that is gone has expired, or max others were used since. */
  ghost predicate AbsenceOk(max: nat, ttl: int, ops: seq<Op>, s: seq<Entry>, id: Id, now: int)
  {
    !Has(s, id) && LatestPut(ops, id).Some? ==>
      now >= LatestPut(ops, id).value.at + ttl || |Since(max, ttl, ops, id)| >= max
  }

  ghost predicate EntriesOk(max: nat, ttl: int, ops: seq<Op>, s: seq<Entry>)
  {
    forall i :: 0 <= i < |s| ==> EntryOk(max, ttl, ops, s, i)
  }

  ghost predicate AbsencesOk(max: nat, ttl: int, ops: seq<Op>, s: seq<Entry>, now: int)
  {
    forall id :: AbsenceOk(max, ttl, ops, s, id, now)
  }

  ghost predicate StateOk(max: nat, ttl: int, ops: seq<Op>, s: seq<Entry>, now: int)
  {
    IdsDistinct(s) && |s| <= max && EntriesOk(max, ttl, ops, s) && AbsencesOk(max, ttl, ops, s, now)
  }

  ghost predicate RunOk(max: nat, ttl: int, ops: seq<Op>, now: int)
  {
    StateOk(max, ttl, ops, Run(max, ttl, ops), now)
  }

  // --- Every operation keeps it -----------------------------------------------------------------

  /** What is known of one id before and after an operation that used `used`. */
  lemma SinceStep(max: nat, ttl: int, ops: seq<Op>, id: Id)
    requires ops != []
    ensures var init := ops[..|ops| - 1]; var used := Used(max, ttl, ops);
            Since(max, ttl, ops, id) == if used == Some(id) then {} else
              Since(max, ttl, init, id) + if used.Some? then {used.value} else {}
  {
  }

  lemma HasIs(s: seq<Entry>, id: Id)
    ensures Has(s, id) <==> exists i :: 0 <= i < |s| && s[i].id == id
  {
    if Has(s, id) {
      assert s[Pos(s, id)].id == id;
    }
  }

  predicate Before(s: seq<Entry>, i: nat, id: Id)
    requires i <= |s|
  {
    exists h :: 0 <= h < i && s[h].id == id
  }

  /** An entry that stays, perhaps one place further back, behind the id just used. */
  lemma StaysOk(max: nat, ttl: int, ops: seq<Op>, s: seq<Entry>, s': seq<Entry>, i: nat, j: nat)
    requires ops != [] && i < |s| && j < |s'| && s'[j] == s[i] && EntryOk(max, ttl, ops[..|ops| - 1], s, i)
    requires Used(max, ttl, ops) != Some(s[i].id) && LatestPut(ops, s[i].id) == LatestPut(ops[..|ops| - 1], s[i].id)
    requires forall k :: 0 <= k < j ==> Before(s, i, s'[k].id) || Used(max, ttl, ops) == Some(s'[k].id)
    ensures EntryOk(max, ttl, ops, s', j)
  {
    SinceStep(max, ttl, ops, s[i].id);
  }

  lemma SinceGrows(max: nat, ttl: int, ops: seq<Op>, id: Id)
    requires ops != [] && Used(max, ttl, ops) != Some(id)
    ensures |Since(max, ttl, ops, id)| >= |Since(max, ttl, ops[..|ops| - 1], id)|
  {
    SinceStep(max, ttl, ops, id);
    SubsetCard(Since(max, ttl, ops[..|ops| - 1], id), Since(max, ttl, ops, id));
  }

  /** An id that was gone and was not used stays gone for its reason. */
  lemma StaysAway(max: nat, ttl: int, ops: seq<Op>, s: seq<Entry>, s': seq<Entry>, id: Id, before: int, now: int)
    requires ops != [] && AbsenceOk(max, ttl, ops[..|ops| - 1], s, id, before) && before <= now
    requires !Has(s, id) && Used(max, ttl, ops) != Some(id) && LatestPut(ops, id) == LatestPut(ops[..|ops| - 1], id)
    ensures AbsenceOk(max, ttl, ops, s', id, now)
  {
    SinceGrows(max, ttl, ops, id);
  }

  lemma IdleOk(max: nat, ttl: int, ops: seq<Op>, s: seq<Entry>, before: int, now: int)
    requires ops != [] && before <= now && StateOk(max, ttl, ops[..|ops| - 1], s, before)
    requires Used(max, ttl, ops) == None && ops[|ops| - 1].Get?
    ensures StateOk(max, ttl, ops, s, now)
  {
    forall i | 0 <= i < |s|
      ensures EntryOk(max, ttl, ops, s, i)
    {
      assert EntryOk(max, ttl, ops[..|ops| - 1], s, i);
      StaysOk(max, ttl, ops, s, s, i, i);
    }
    forall id
      ensures AbsenceOk(max, ttl, ops, s, id, now)
    {
      assert AbsenceOk(max, ttl, ops[..|ops| - 1], s, id, before);
      if !Has(s, id) {
        StaysAway(max, ttl, ops, s, s, id, before, now);
      }
    }
  }

  /** Where a place of Without was. */
  lemma WithoutAt(s: seq<Entry>, p: nat, j: nat)
    requires p < |s| && j < |s| - 1
    ensures Without(s, p)[j] == s[if j < p then j else j + 1]
  {
  }

  lemma WithoutHas(s: seq<Entry>, p: nat, id: Id)
    requires IdsDistinct(s) && p < |s|
    ensures IdsDistinct(Without(s, p)) && (Has(Without(s, p), id) <==> Has(s, id) && id != s[p].id)
  {
    var t := Without(s, p);
    forall j, k | 0 <= j < k < |t|
      ensures t[j].id != t[k].id
    {
      WithoutAt(s, p, j);
      WithoutAt(s, p, k);
    }
    HasIs(s, id);
    HasIs(t, id);
    if Has(s, id) && id != s[p].id {
      var i := Pos(s, id);
      WithoutAt(s, p, if i < p then i else i - 1);
    }
    if Has(t, id) {
      WithoutAt(s, p, Pos(t, id));
    }
  }

  lemma ExpiryOk(max: nat, ttl: int, ops: seq<Op>, s: seq<Entry>, p: nat, before: int, now: int)
    requires ops != [] && before <= now && StateOk(max, ttl, ops[..|ops| - 1], s, before)
    requires Used(max, ttl, ops) == None && ops[|ops| - 1].Get? && p < |s| && now >= s[p].expires
    ensures StateOk(max, ttl, ops, Without(s, p), now)
  {
    var s' := Without(s, p);
    forall j | 0 <= j < |s'|
      ensures EntryOk(max, ttl, ops, s', j)
    {
      ExpiryEntryOk(max, ttl, ops, s, p, j);
    }
    assert EntryOk(max, ttl, ops[..|ops| - 1], s, p);
    forall id
      ensures AbsenceOk(max, ttl, ops, s', id, now)
    {
      WithoutHas(s, p, id);
      assert AbsenceOk(max, ttl, ops[..|ops| - 1], s, id, before);
      if !Has(s, id) {
        StaysAway(max, ttl, ops, s, s', id, before, now);
      }
    }
    WithoutHas(s, p, s[p].id);
  }

  lemma ExpiryEntryOk(max: nat, ttl: int, ops: seq<Op>, s: seq<Entry>, p: nat, j: nat)
    requires ops != [] && EntriesOk(max, ttl, ops[..|ops| - 1], s) && p < |s| && j < |s| - 1
    requires Used(max, ttl, ops) == None && ops[|ops| - 1].Get?
    ensures EntryOk(max, ttl, ops, Without(s, p), j)
  {
    var s' := Without(s, p);
    var i := if j < p then j else j + 1;
    WithoutAt(s, p, j);
    assert EntryOk(max, ttl, ops[..|ops| - 1], s, i);
    forall k | 0 <= k < j
      ensures Before(s, i, s'[k].id)
    {
      WithoutAt(s, p, k);
      assert s'[k].id == s[if k < p then k else k + 1].id;
    }
    StaysOk(max, ttl, ops, s, s', i, j);
  }

  /** The entry used comes to the front; the others keep their order behind it. */
  lemma FrontOk(max: nat, ttl: int, ops: seq<Op>, s: seq<Entry>, p: nat, before: int, now: int, front: Entry)
    requires ops != [] && before <= now && StateOk(max, ttl, ops[..|ops| - 1], s, before)
    requires p < |s| && s[p].id == front.id == ops[|ops| - 1].id && Used(max, ttl, ops) == Some(front.id)
    requires LatestPut(ops, front.id) == Some(Stored(front.value, front.expires - ttl))
    ensures StateOk(max, ttl, ops, [front] + Without(s, p), now)
  {
    var s' := [front] + Without(s, p);
    forall j | 0 <= j < |s'|
      ensures EntryOk(max, ttl, ops, s', j)
    {
      if j > 0 {
        FrontEntryOk(max, ttl, ops, s, s', p, j, front);
      }
    }
    forall id
      ensures AbsenceOk(max, ttl, ops, s', id, now)
    {
      WithoutHas(s, p, id);
      FrontHas(front, Without(s, p), id);
      assert AbsenceOk(max, ttl, ops[..|ops| - 1], s, id, before);
      if !Has(s', id) {
        StaysAway(max, ttl, ops, s, s', id, before, now);
      }
    }
    FrontDistinct(front, s, p);
  }

  lemma FrontHas(front: Entry, rest: seq<Entry>, id: Id)
    ensures Has([front] + rest, id) <==> id == front.id || Has(rest, id)
  {
    assert ([front] + rest)[1..] == rest;
  }

  lemma FrontDistinct(front: Entry, s: seq<Entry>, p: nat)
    requires IdsDistinct(s) && p < |s| && s[p].id == front.id
    ensures IdsDistinct([front] + Without(s, p))
  {
    WithoutHas(s, p, front.id);
    var t := Without(s, p);
    HasIs(t, front.id);
  }

  lemma FrontEntryOk(max: nat, ttl: int, ops: seq<Op>, s: seq<Entry>, s': seq<Entry>, p: nat, j: nat, front: Entry)
    requires ops != [] && IdsDistinct(s) && p < |s| && s[p].id == front.id && ops[|ops| - 1].id == front.id
    requires s' == [front] + Without(s, p) && 0 < j < |s'| && Used(max, ttl, ops) == Some(front.id)
    requires EntriesOk(max, ttl, ops[..|ops| - 1], s)
    ensures EntryOk(max, ttl, ops, s', j)
  {
    WithoutAt(s, p, j - 1);
    var i := if j - 1 < p then j - 1 else j;
    assert s'[j] == s[i] && EntryOk(max, ttl, ops[..|ops| - 1], s, i);
    forall k | 0 <= k < j
      ensures Before(s, i, s'[k].id) || Used(max, ttl, ops) == Some(s'[k].id)
    {
      if k > 0 {
        WithoutAt(s, p, k - 1);
        assert s'[k].id == s[if k - 1 < p then k - 1 else k].id;
      }
    }
    StaysOk(max, ttl, ops, s, s', i, j);
  }

  // --- A new id ------------------------------------------------------------------------------------

  /** As many ids lie before a place as its index says. */
  lemma {:induction false} IdsBefore(s: seq<Entry>, n: nat)
    requires IdsDistinct(s) && n <= |s|
    ensures |Ids(s[..n])| == n
    decreases n
  {
    if n > 0 {
      IdsBefore(s, n - 1);
      var shorter := Ids(s[..n - 1]);
      assert Ids(s[..n]) == shorter + {s[n - 1].id} by {
        forall x | x in Ids(s[..n])
          ensures x in shorter + {s[n - 1].id}
        {
          var i :| 0 <= i < n && s[..n][i].id == x;
          assert i < n - 1 ==> s[..n - 1][i].id == x;
        }
        forall x | x in shorter + {s[n - 1].id}
          ensures x in Ids(s[..n])
        {
          if x in shorter {
            var i :| 0 <= i < n - 1 && s[..n - 1][i].id == x;
            assert s[..n][i].id == x;
          } else {
            assert s[..n][n - 1].id == x;
          }
        }
      }
      assert s[n - 1].id !in shorter;
    } else {
      assert Ids(s[..0]) == {};
    }
  }

  /** The entry pushed out at the back had max others used since. */
  lemma EvictedIsCrowded(max: nat, ttl: int, ops: seq<Op>, s: seq<Entry>, front: Id)
    requires ops != [] && |s| == max && max > 0 && IdsDistinct(s) && Used(max, ttl, ops) == Some(front) && !Has(s, front)
    requires EntryOk(max, ttl, ops[..|ops| - 1], s, max - 1)
    ensures |Since(max, ttl, ops, s[max - 1].id)| >= max
  {
    var id := s[max - 1].id;
    HasIs(s, front);
    assert id != front;
    SinceStep(max, ttl, ops, id);
    var ahead := Ids(s[..max - 1]);
    IdsBefore(s, max - 1);
    assert front !in ahead;
    assert ahead + {front} <= Since(max, ttl, ops, id);
    SubsetCard(ahead + {front}, Since(max, ttl, ops, id));
  }

  lemma PushEntries(max: nat, ttl: int, ops: seq<Op>, s: seq<Entry>, s': seq<Entry>)
    requires ops != [] && ops[|ops| - 1].Put? && !Has(s, ops[|ops| - 1].id) && |s'| <= |s| + 1
    requires EntriesOk(max, ttl, ops[..|ops| - 1], s)
    requires var last := ops[|ops| - 1]; |s'| > 0 ==> s'[0] == Entry(last.id, last.value, last.at + ttl)
    requires forall j :: 0 < j < |s'| ==> s'[j] == s[j - 1]
    ensures forall j :: 0 <= j < |s'| ==> EntryOk(max, ttl, ops, s', j)
  {
    HasIs(s, ops[|ops| - 1].id);
    forall j | 0 <= j < |s'|
      ensures EntryOk(max, ttl, ops, s', j)
    {
      if j > 0 {
        assert EntryOk(max, ttl, ops[..|ops| - 1], s, j - 1);
        forall k | 0 <= k < j
          ensures Before(s, j - 1, s'[k].id) || Used(max, ttl, ops) == Some(s'[k].id)
        {
          assert k > 0 ==> s'[k].id == s[k - 1].id;
        }
        StaysOk(max, ttl, ops, s, s', j - 1, j);
      }
    }
  }

  lemma PushDistinct(s: seq<Entry>, front: Entry, n: nat)
    requires IdsDistinct(s) && !Has(s, front.id) && n <= |s| + 1
    ensures IdsDistinct(([front] + s)[..n])
  {
    HasIs(s, front.id);
  }

  lemma PushOk(max: nat, ttl: int, ops: seq<Op>, s: seq<Entry>, before: int, now: int, front: Entry)
    requires ops != [] && ops[|ops| - 1].Put? && before <= now && StateOk(max, ttl, ops[..|ops| - 1], s, before)
    requires var last := ops[|ops| - 1]; !Has(s, last.id) && front == Entry(last.id, last.value, last.at + ttl)
    ensures StateOk(max, ttl, ops, ([front] + s)[..Min(|s| + 1, max)], now)
  {
    var s' := ([front] + s)[..Min(|s| + 1, max)];
    PushEntries(max, ttl, ops, s, s');
    PushDistinct(s, front, Min(|s| + 1, max));
    forall id
      ensures AbsenceOk(max, ttl, ops, s', id, now)
    {
      PushAbsence(max, ttl, ops, s, before, now, front, id);
    }
  }

  lemma PushedBack(front: Entry, s: seq<Entry>, n: nat, p: nat)
    requires n <= |s| + 1 && p < |s|
    ensures p + 1 < n ==> Before(([front] + s)[..n], n, s[p].id)
  {
    var t := ([front] + s)[..n];
    assert p + 1 < n ==> t[p + 1] == s[p];
  }

  lemma PushAbsence(max: nat, ttl: int, ops: seq<Op>, s: seq<Entry>, before: int, now: int, front: Entry, id: Id)
    requires ops != [] && ops[|ops| - 1].Put? && before <= now && StateOk(max, ttl, ops[..|ops| - 1], s, before)
    requires front.id == ops[|ops| - 1].id && !Has(s, front.id)
    ensures AbsenceOk(max, ttl, ops, ([front] + s)[..Min(|s| + 1, max)], id, now)
  {
    var s' := ([front] + s)[..Min(|s| + 1, max)];
    HasIs(s', id);
    if !Has(s', id) && id != front.id {
      if Has(s, id) {
        var p := Pos(s, id);
        PushedBack(front, s, |s'|, p);
        assert EntryOk(max, ttl, ops[..|ops| - 1], s, p);
        EvictedIsCrowded(max, ttl, ops, s, front.id);
      } else {
        assert AbsenceOk(max, ttl, ops[..|ops| - 1], s, id, before);
        StaysAway(max, ttl, ops, s, s', id, before, now);
      }
    } else if max > 0 {
      assert s'[0].id == front.id;
    }
  }

  // --- Every run ---------------------------------------------------------------------------------------

  function Clock(ops: seq<Op>): int { if ops == [] then 0 else ops[|ops| - 1].at }

  lemma PutStepOk(max: nat, ttl: int, ops: seq<Op>, s: seq<Entry>, before: int)
    requires ops != [] && before <= ops[|ops| - 1].at && StateOk(max, ttl, ops[..|ops| - 1], s, before)
    requires ops[|ops| - 1].Put?
    ensures var last := ops[|ops| - 1]; StateOk(max, ttl, ops, AfterPut(s, last.id, last.value, last.at + ttl, max), last.at)
  {
    var last := ops[|ops| - 1];
    var front := Entry(last.id, last.value, last.at + ttl);
    if Has(s, last.id) {
      FrontOk(max, ttl, ops, s, Pos(s, last.id), before, last.at, front);
    } else {
      PushOk(max, ttl, ops, s, before, last.at, front);
    }
  }

  lemma GetStepOk(max: nat, ttl: int, ops: seq<Op>, s: seq<Entry>, before: int)
    requires ops != [] && before <= ops[|ops| - 1].at && StateOk(max, ttl, ops[..|ops| - 1], s, before)
    requires ops[|ops| - 1].Get? && s == Run(max, ttl, ops[..|ops| - 1])
    ensures var last := ops[|ops| - 1]; StateOk(max, ttl, ops, AfterGet(s, last.id, last.at), last.at)
  {
    var last := ops[|ops| - 1];
    var p := Pos(s, last.id);
    if p == |s| {
      IdleOk(max, ttl, ops, s, before, last.at);
    } else if last.at >= s[p].expires {
      ExpiryOk(max, ttl, ops, s, p, before, last.at);
    } else {
      assert EntryOk(max, ttl, ops[..|ops| - 1], s, p);
      FrontOk(max, ttl, ops, s, p, before, last.at, s[p]);
    }
  }

  lemma StepOk(max: nat, ttl: int, ops: seq<Op>, before: int)
    requires ops != [] && before <= ops[|ops| - 1].at && RunOk(max, ttl, ops[..|ops| - 1], before)
    ensures RunOk(max, ttl, ops, ops[|ops| - 1].at)
  {
    var s := Run(max, ttl, ops[..|ops| - 1]);
    if ops[|ops| - 1].Put? {
      PutStepOk(max, ttl, ops, s, before);
    } else {
      GetStepOk(max, ttl, ops, s, before);
    }
  }

  lemma {:induction false} EveryRunIsOk(max: nat, ttl: int, ops: seq<Op>)
    requires InOrder(ops)
    ensures RunOk(max, ttl, ops, Clock(ops))
  {
    if ops != [] {
      var init := ops[..|ops| - 1];
      EveryRunIsOk(max, ttl, init);
      if init == [] {
        EmptyIsOk(max, ttl, ops[0].at);
        StepOk(max, ttl, ops, ops[0].at);
      } else {
        StepOk(max, ttl, ops, Clock(init));
      }
    } else {
      EmptyIsOk(max, ttl, 0);
    }
  }

  lemma EmptyIsOk(max: nat, ttl: int, now: int)
    ensures RunOk(max, ttl, [], now)
  {
    assert forall id: Id :: LatestPut([], id).None?;
  }

  /** Never more than max entries, and no id twice. */
  lemma NeverOverfull(max: nat, ttl: int, ops: seq<Op>)
    requires InOrder(ops)
    ensures |Run(max, ttl, ops)| <= max && IdsDistinct(Run(max, ttl, ops))
  {
    EveryRunIsOk(max, ttl, ops);
  }

  /** A hit returns what the id was put with last, and only before that put expires. */
  lemma HitIsLatest(max: nat, ttl: int, ops: seq<Op>, id: Id, now: int)
    requires InOrder(ops) && Got(Run(max, ttl, ops), id, now).Some?
    ensures LatestPut(ops, id).Some? && Got(Run(max, ttl, ops), id, now) == Some(LatestPut(ops, id).value.value)
    ensures now < LatestPut(ops, id).value.at + ttl
  {
    EveryRunIsOk(max, ttl, ops);
    var s := Run(max, ttl, ops);
    assert EntryOk(max, ttl, ops, s, Pos(s, id));
  }

  /** A miss on an id whose last put has not expired means that at least max other ids were put or
      hit since it was used last. */
  lemma MissMeansCrowded(max: nat, ttl: int, ops: seq<Op>, id: Id, now: int)
    requires InOrder(ops) && (ops == [] || Clock(ops) <= now) && Got(Run(max, ttl, ops), id, now).None?
    requires LatestPut(ops, id).Some? && now < LatestPut(ops, id).value.at + ttl
    ensures |Since(max, ttl, ops, id)| >= max
  {
    EveryRunIsOk(max, ttl, ops);
    var s := Run(max, ttl, ops);
    assert Has(s, id) ==> EntryOk(max, ttl, ops, s, Pos(s, id));
    assert AbsenceOk(max, ttl, ops, s, id, Clock(ops));
  }
}
