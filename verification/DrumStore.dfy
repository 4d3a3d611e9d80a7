/**
 Saving drum edits (store.go): ref-counted locks per job, compare-and-swap on
 the revision, and replacement of the file through a temporary one.
 */
module DrumStore {
  import opened Prelude
  import opened DrumDoc

  type Key = nat                                           // a job
  type Gid = nat                                           // a goroutine
  type LockId = nat

  // --- One job's directory ------------------------------------------------------------

  /** What a file holds: a document, or bytes that are none (yet). */
  datatype Content = Torn | Whole(doc: Doc)

  datatype Dir = Dir(jobDir: bool, edits: bool, file: Option<Content>, part: Option<Content>)

  const NOTHING := Dir(false, false, None, None)

  datatype Op =
    | Save(key: Key, seed: Option<Doc>, base: int, events: seq<Event>, now: int)
    | Mark(key: Key, seed: Option<Doc>, rev: int)

  datatype Answer = Done(doc: Doc) | Unchanged | Conflict(rev: int) | JobGone | Failed

  datatype Verdict = Write(doc: Doc) | Reply(answer: Answer)

  /** The document an operation works on: the file's, or the seed when there is none. */
  function Current(d: Dir, seed: Option<Doc>): Option<Doc>
  {
    match d.file
    case None => seed
    case Some(Torn) => None
    case Some(Whole(doc)) => Some(doc)
  }

  /** What Save and MarkExported make of the current document. */
  function Judge(op: Op, current: Option<Doc>): Verdict
  {
    if current.None? then Reply(Failed)
    else
      var cur := current.value;
      match op
      case Save(_, _, base, events, now) =>
        if cur.editRev != base then Reply(Conflict(cur.editRev))
        else Write(cur.(editRev := cur.editRev + 1, updatedAt := now, events := events))
      case Mark(_, _, rev) =>
        if cur.editRev != rev || cur.exportedRev == Some(rev) then Reply(Unchanged)
        else Write(cur.(exportedRev := Some(rev)))
  }

  // Each call of write(), on success or failure; None lets write() go on.

  function Mkdir(d: Dir, ok: bool): (Dir, Option<Answer>)
  {
    if !d.jobDir then (d, Some(JobGone)) else if !ok then (d, Some(Failed)) else (d.(edits := true), None)
  }

  /** WriteFile truncates before it writes. */
  function Open(d: Dir, ok: bool): (Dir, Option<Answer>)
  {
    if !d.edits then (d, Some(JobGone)) else if !ok then (d, Some(Failed)) else (d.(part := Some(Torn)), None)
  }

  /** The bytes land in the file opened, which may have been unlinked since. */
  function Fill(d: Dir, doc: Doc, ok: bool): (Dir, Option<Answer>)
  {
    if !ok then (d, Some(Failed)) else (d.(part := if d.part.Some? then Some(Whole(doc)) else None), None)
  }

  function Rename(d: Dir, doc: Doc, ok: bool): (Dir, Answer)
  {
    if d.part.None? then (d, JobGone)
    else if !ok then (d.(part := None), Failed)
    else (d.(file := d.part, part := None), Done(doc))
  }

  datatype Faults = Faults(mkdir: bool, open: bool, fill: bool, rename: bool)

  function Replaced(d: Dir, doc: Doc, f: Faults): (Dir, Answer)
  {
    var (d1, a1) := Mkdir(d, f.mkdir);
    if a1.Some? then (d1, a1.value)
    else
      var (d2, a2) := Open(d1, f.open);
      if a2.Some? then (d2, a2.value)
      else
        var (d3, a3) := Fill(d2, doc, f.fill);
        if a3.Some? then (d3, a3.value) else Rename(d3, doc, f.rename)
  }

  /** A whole operation nobody disturbs. */
  function Performed(d: Dir, op: Op, f: Faults): (Dir, Answer)
  {
    match Judge(op, Current(d, op.seed))
    case Reply(answer) => (d, answer)
    case Write(doc) => Replaced(d, doc, f)
  }

  class EditFile {
    var dir: Dir

    method WriteDoc(doc: Doc, f: Faults) returns (answer: Answer)
      modifies this
      ensures (dir, answer) == Replaced(old(dir), doc, f)
    {
      if !dir.jobDir {
        return JobGone;
      }
      if !f.mkdir {
        return Failed;
      }
      dir := dir.(edits := true);
      if !f.open {
        return Failed;
      }
      dir := dir.(part := Some(Torn));
      if !f.fill {
        return Failed;
      }
      dir := dir.(part := Some(Whole(doc)));
      if !f.rename {
        dir := dir.(part := None);
        return Failed;
      }
      dir := dir.(file := dir.part, part := None);
      return Done(doc);
    }

    method SaveEdits(op: Op, f: Faults) returns (answer: Answer)
      requires op.Save?
      modifies this
      ensures (dir, answer) == Performed(old(dir), op, f)
    {
      var cur: Doc;
      match dir.file {
        case None =>
          if op.seed.None? {
            return Failed;
          }
          cur := op.seed.value;
        case Some(Torn) => return Failed;
        case Some(Whole(doc)) => cur := doc;
      }
      if cur.editRev != op.base {
        return Conflict(cur.editRev);
      }
      cur := cur.(editRev := cur.editRev + 1);
      cur := cur.(updatedAt := op.now);
      cur := cur.(events := op.events);
      answer := WriteDoc(cur, f);
    }

    method MarkExported(op: Op, f: Faults) returns (answer: Answer)
      requires op.Mark?
      modifies this
      ensures (dir, answer) == Performed(old(dir), op, f)
    {
      var cur := Current(dir, op.seed);
      if cur.None? {
        return Failed;
      }
      if cur.value.editRev != op.rev || cur.value.exportedRev == Some(op.rev) {
        return Unchanged;
      }
      answer := WriteDoc(cur.value.(exportedRev := Some(op.rev)), f);
    }
  }

  // --- The lock table -----------------------------------------------------------------

  /** `key` is history: the entry the lock was made for. */
  datatype Lock = Lock(key: Key, refs: int, holder: Option<Gid>)

  datatype Locks = Locks(objs: map<LockId, Lock>, table: map<Key, LockId>, next: LockId)

  const NO_LOCKS := Locks(map[], map[], 0)

  /** lock(key) up to the wait: find or make the entry and count ourselves. */
  function Entered(t: Locks, key: Key): Locks
  {
    if key in t.table && t.table[key] in t.objs then
      var l := t.table[key];
      t.(objs := t.objs[l := t.objs[l].(refs := t.objs[l].refs + 1)])
    else Locks(t.objs[t.next := Lock(key, 1, None)], t.table[key := t.next], t.next + 1)
  }

  function LockOf(t: Locks, key: Key): LockId { if key in t.table then t.table[key] else 0 }

  function Acquired(t: Locks, l: LockId, g: Gid): Locks
  {
    if l in t.objs && t.objs[l].holder.None? then t.(objs := t.objs[l := t.objs[l].(holder := Some(g))]) else t
  }

  function Released(t: Locks, l: LockId): Locks
  {
    if l in t.objs then t.(objs := t.objs[l := t.objs[l].(holder := None)]) else t
  }

  /** The rest of the unlock function: the last to leave drops the entry. */
  function Dropped(t: Locks, key: Key, l: LockId): Locks
  {
    if l !in t.objs then t
    else
      var refs := t.objs[l].refs - 1;
      if refs == 0 then t.(objs := t.objs - {l}, table := t.table - {key})
      else t.(objs := t.objs[l := t.objs[l].(refs := refs)])
  }

  class LockTable {
    var objs: map<LockId, Lock>
    var table: map<Key, LockId>
    var next: LockId

    ghost function Snapshot(): Locks
      reads this
    {
      Locks(objs, table, next)
    }

    method Enter(key: Key) returns (l: LockId)
      requires forall k :: k in table ==> table[k] in objs
      modifies this
      ensures Snapshot() == Entered(old(Snapshot()), key) && l == LockOf(Snapshot(), key)
    {
      if key !in table {
        objs := objs[next := Lock(key, 0, None)];
        table := table[key := next];
        next := next + 1;
      }
      l := table[key];
      objs := objs[l := objs[l].(refs := objs[l].refs + 1)];
    }

    method Drop(key: Key, l: LockId)
      requires l in objs
      modifies this
      ensures Snapshot() == Dropped(old(Snapshot()), key, l)
    {
      objs := objs[l := objs[l].(refs := objs[l].refs - 1)];
      if objs[l].refs == 0 {
        table := table - {key};
        objs := objs - {l};
      }
      assert objs == Dropped(old(Snapshot()), key, l).objs;
    }
  }
}
