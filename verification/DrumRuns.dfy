/**
 Goroutines saving and exporting drum edits at once, one lock operation or
 file system call at a time, with removals and crashes in between.
 */
module DrumRuns {
  import opened Prelude
  import opened DrumDoc
  import opened DrumStore

  /** Where a goroutine is inside lock() ... unlock(). */
  datatype Pc =
    | Waiting(op: Op, l: LockId)
    | Reading(op: Op, l: LockId)
    | Making(op: Op, l: LockId, doc: Doc)
    | Opening(op: Op, l: LockId, doc: Doc)
    | Filling(op: Op, l: LockId, doc: Doc)
    | Renaming(op: Op, l: LockId, doc: Doc)
    | Leaving(op: Op, l: LockId, answer: Answer)
    | Dropping(op: Op, l: LockId, answer: Answer)

  /** A save that went through: the revision it was based on and the document it left. */
  datatype Commit = Commit(base: int, doc: Doc)

  datatype System = System(
    locks: Locks, pcs: map<Gid, Pc>, dirs: map<Key, Dir>,
    doomed: set<Key>, saves: map<Key, seq<Commit>>)         // history: removals begun, saves that went through

  datatype Act =
    | NewJob(key: Key)
    | Call(g: Gid, op: Op)
    | Acquire(g: Gid)
    | Work(g: Gid, ok: bool)                               // the next read, check or file system call
    | Unlock(g: Gid)
    | Drop(g: Gid)
    | RemoveEdits(key: Key)                                // the job's removal empties its directory
    | RemoveDir(key: Key)
    | Crash                                                // the process dies and starts anew

  function DirOf(s: System, key: Key): Dir { if key in s.dirs then s.dirs[key] else NOTHING }

  function SavesOf(s: System, key: Key): seq<Commit> { if key in s.saves then s.saves[key] else [] }

  function Put(s: System, g: Gid, pc: Pc, d: Dir): System
  {
    s.(pcs := s.pcs[g := pc], dirs := if pc.op.key in s.dirs then s.dirs[pc.op.key := d] else s.dirs)
  }

  function WorkStep(s: System, g: Gid, ok: bool): System
    requires g in s.pcs
  {
    var pc := s.pcs[g];
    var d := DirOf(s, pc.op.key);
    match pc
    case Reading(op, l) =>
      var verdict := if ok then Judge(op, Current(d, op.seed)) else Reply(Failed);
      Put(s, g, if verdict.Write? then Making(op, l, verdict.doc) else Leaving(op, l, verdict.answer), d)
    case Making(op, l, doc) =>
      var (d', a) := Mkdir(d, ok);
      Put(s, g, if a.Some? then Leaving(op, l, a.value) else Opening(op, l, doc), d')
    case Opening(op, l, doc) =>
      var (d', a) := Open(d, ok);
      Put(s, g, if a.Some? then Leaving(op, l, a.value) else Filling(op, l, doc), d')
    case Filling(op, l, doc) =>
      var (d', a) := Fill(d, doc, ok);
      Put(s, g, if a.Some? then Leaving(op, l, a.value) else Renaming(op, l, doc), d')
    case Renaming(op, l, doc) =>
      var (d', a) := Rename(d, doc, ok);
      var s' := Put(s, g, Leaving(op, l, a), d');
      if a.Done? && op.Save? then s'.(saves := s.saves[op.key := SavesOf(s, op.key) + [Commit(op.base, doc)]]) else s'
    case _ => s
  }

  function Step(s: System, a: Act): System
  {
    match a
    case NewJob(key) => if key in s.dirs then s else s.(dirs := s.dirs[key := Dir(true, false, None, None)])
    case Call(g, op) =>
      if g in s.pcs || !SeedOk(op.seed) then s
      else
        var locks := Entered(s.locks, op.key);
        s.(locks := locks, pcs := s.pcs[g := Waiting(op, LockOf(locks, op.key))])
    case Acquire(g) =>
      if g !in s.pcs || !s.pcs[g].Waiting? || s.pcs[g].l !in s.locks.objs || s.locks.objs[s.pcs[g].l].holder.Some? then s
      else s.(locks := Acquired(s.locks, s.pcs[g].l, g), pcs := s.pcs[g := Reading(s.pcs[g].op, s.pcs[g].l)])
    case Work(g, ok) => if g in s.pcs then WorkStep(s, g, ok) else s
    case Unlock(g) =>
      if g !in s.pcs || !s.pcs[g].Leaving? then s
      else s.(locks := Released(s.locks, s.pcs[g].l), pcs := s.pcs[g := Dropping(s.pcs[g].op, s.pcs[g].l, s.pcs[g].answer)])
    case Drop(g) =>
      if g !in s.pcs || !s.pcs[g].Dropping? then s
      else s.(locks := Dropped(s.locks, s.pcs[g].op.key, s.pcs[g].l), pcs := s.pcs - {g})
    case RemoveEdits(key) =>
      if key !in s.dirs then s
      else s.(dirs := s.dirs[key := Dir(s.dirs[key].jobDir, false, None, None)], doomed := s.doomed + {key})
    case RemoveDir(key) =>
      if key !in s.dirs || s.dirs[key].edits then s
      else s.(dirs := s.dirs[key := NOTHING], doomed := s.doomed + {key})
    case Crash => s.(locks := NO_LOCKS, pcs := map[])
  }

  /** The seed is the untouched revision 0. */
  predicate SeedOk(seed: Option<Doc>) { seed.Some? ==> seed.value.editRev == 0 && seed.value.exportedRev.None? }

  function Run(acts: seq<Act>): System
  {
    if acts == [] then System(NO_LOCKS, map[], map[], {}, map[])
    else Step(Run(acts[..|acts| - 1]), acts[|acts| - 1])
  }

  /** A holder nobody disturbs does what the whole operation is said to do. */
  lemma UndisturbedWork(s: System, g: Gid, f: Faults)
    requires g in s.pcs && s.pcs[g].Reading? && s.pcs[g].op.key in s.dirs
    requires DirOf(s, s.pcs[g].op.key).jobDir && s.dirs[s.pcs[g].op.key].file != Some(Torn)
    ensures var op := s.pcs[g].op;
            var (d, answer) := Performed(DirOf(s, op.key), op, f);
            var s1 := Step(s, Work(g, true));
            var s3 := Step(Step(s1, Work(g, f.mkdir)), Work(g, f.open));
            var s5 := Step(Step(s3, Work(g, f.fill)), Work(g, f.rename));
            g in s5.pcs && s5.pcs[g] == Leaving(op, s.pcs[g].l, answer) && DirOf(s5, op.key) == d
  {
    var s1 := Step(s, Work(g, true));
    var s2 := Step(s1, Work(g, f.mkdir));
    var s3 := Step(s2, Work(g, f.open));
    var s4 := Step(s3, Work(g, f.fill));
    assert s1.pcs[g].Leaving? || s1.pcs[g].Making?;
    assert s2.pcs[g].Leaving? || s2.pcs[g].Opening?;
    assert s3.pcs[g].Leaving? || s3.pcs[g].Filling?;
    assert s4.pcs[g].Leaving? || s4.pcs[g].Renaming?;
  }

  // --- The lock table in every state ---------------------------------------------------------

  predicate Holds(pc: Pc) { !pc.Waiting? && !pc.Dropping? }

  /** The goroutines that count in an entry: holders, waiters, and those that unlocked but did not
      leave yet. */
  function Users(pcs: map<Gid, Pc>, l: LockId): set<Gid>
  {
    set g | g in pcs && pcs[g].l == l
  }

  ghost predicate TableOk(t: Locks, pcs: map<Gid, Pc>)
  {
    && (forall k :: k in t.table ==> t.table[k] in t.objs && t.objs[t.table[k]].key == k)
    && (forall l :: l in t.objs ==> l < t.next && t.objs[l].key in t.table && t.table[t.objs[l].key] == l)
    && (forall g :: g in pcs ==> pcs[g].op.key in t.table && pcs[g].l == t.table[pcs[g].op.key])
  }

  ghost predicate CountsOk(t: Locks, pcs: map<Gid, Pc>)
  {
    forall l :: l in t.objs ==> t.objs[l].refs == |Users(pcs, l)| > 0
  }

  ghost predicate HoldersOk(t: Locks, pcs: map<Gid, Pc>)
  {
    && (forall l :: l in t.objs && t.objs[l].holder.Some? ==>
          var g := t.objs[l].holder.value; g in pcs && pcs[g].l == l && Holds(pcs[g]))
    && (forall g :: g in pcs && Holds(pcs[g]) ==> pcs[g].l in t.objs && t.objs[pcs[g].l].holder == Some(g))
  }

  ghost predicate LocksOk(t: Locks, pcs: map<Gid, Pc>)
  {
    TableOk(t, pcs) && CountsOk(t, pcs) && HoldersOk(t, pcs)
  }

  lemma UsersMove(pcs: map<Gid, Pc>, g: Gid, pc: Pc, l: LockId)
    requires g in pcs && pc.l == pcs[g].l
    ensures Users(pcs[g := pc], l) == Users(pcs, l)
  {
  }

  lemma UsersCome(pcs: map<Gid, Pc>, g: Gid, pc: Pc, l: LockId)
    requires g !in pcs
    ensures |Users(pcs[g := pc], l)| == |Users(pcs, l)| + if pc.l == l then 1 else 0
  {
    assert Users(pcs[g := pc], l) == if pc.l == l then Users(pcs, l) + {g} else Users(pcs, l);
  }

  lemma UsersGo(pcs: map<Gid, Pc>, g: Gid, l: LockId)
    requires g in pcs
    ensures |Users(pcs - {g}, l)| == |Users(pcs, l)| - if pcs[g].l == l then 1 else 0
  {
    assert Users(pcs - {g}, l) == if pcs[g].l == l then Users(pcs, l) - {g} else Users(pcs, l);
  }

  lemma MoveKeepsCounts(t: Locks, t': Locks, pcs: map<Gid, Pc>, g: Gid, pc: Pc)
    requires CountsOk(t, pcs) && g in pcs && pc.l == pcs[g].l
    requires t'.objs.Keys == t.objs.Keys && forall l :: l in t.objs ==> t'.objs[l].refs == t.objs[l].refs
    ensures CountsOk(t', pcs[g := pc])
  {
    forall l | l in t'.objs
      ensures t'.objs[l].refs == |Users(pcs[g := pc], l)| > 0
    {
      UsersMove(pcs, g, pc, l);
    }
  }

  /** A goroutine moves on without touching its key, lock or hold. */
  lemma MoveKeepsLocks(t: Locks, pcs: map<Gid, Pc>, g: Gid, pc: Pc)
    requires LocksOk(t, pcs) && g in pcs && pc.l == pcs[g].l && pc.op.key == pcs[g].op.key && Holds(pc) == Holds(pcs[g])
    ensures LocksOk(t, pcs[g := pc])
  {
    MoveKeepsCounts(t, t, pcs, g, pc);
  }

  lemma NobodyYet(pcs: map<Gid, Pc>, l: LockId)
    requires forall g :: g in pcs ==> pcs[g].l != l
    ensures |Users(pcs, l)| == 0
  {
    assert Users(pcs, l) == {};
  }

  lemma EnterKeepsCounts(t: Locks, pcs: map<Gid, Pc>, g: Gid, op: Op)
    requires TableOk(t, pcs) && CountsOk(t, pcs) && g !in pcs
    ensures var t' := Entered(t, op.key); CountsOk(t', pcs[g := Waiting(op, LockOf(t', op.key))])
  {
    var t' := Entered(t, op.key);
    var pc := Waiting(op, LockOf(t', op.key));
    if op.key !in t.table {
      NobodyYet(pcs, t.next);
    }
    forall l | l in t'.objs
      ensures t'.objs[l].refs == |Users(pcs[g := pc], l)| > 0
    {
      UsersCome(pcs, g, pc, l);
    }
  }

  lemma EnterKeepsTable(t: Locks, pcs: map<Gid, Pc>, g: Gid, op: Op)
    requires TableOk(t, pcs) && HoldersOk(t, pcs) && g !in pcs
    ensures var t' := Entered(t, op.key);
            TableOk(t', pcs[g := Waiting(op, LockOf(t', op.key))]) && HoldersOk(t', pcs[g := Waiting(op, LockOf(t', op.key))])
  {
  }

  lemma AcquireKeepsHolders(t: Locks, pcs: map<Gid, Pc>, g: Gid)
    requires TableOk(t, pcs) && HoldersOk(t, pcs)
    requires g in pcs && pcs[g].Waiting? && pcs[g].l in t.objs && t.objs[pcs[g].l].holder.None?
    ensures TableOk(Acquired(t, pcs[g].l, g), pcs[g := Reading(pcs[g].op, pcs[g].l)])
    ensures HoldersOk(Acquired(t, pcs[g].l, g), pcs[g := Reading(pcs[g].op, pcs[g].l)])
  {
    assert forall k :: k in pcs && Holds(pcs[k]) ==> pcs[k].l != pcs[g].l;
  }

  lemma AcquireKeepsLocks(t: Locks, pcs: map<Gid, Pc>, g: Gid)
    requires LocksOk(t, pcs) && g in pcs && pcs[g].Waiting? && pcs[g].l in t.objs && t.objs[pcs[g].l].holder.None?
    ensures LocksOk(Acquired(t, pcs[g].l, g), pcs[g := Reading(pcs[g].op, pcs[g].l)])
  {
    AcquireKeepsHolders(t, pcs, g);
    MoveKeepsCounts(t, Acquired(t, pcs[g].l, g), pcs, g, Reading(pcs[g].op, pcs[g].l));
  }

  lemma UnlockKeepsHolders(t: Locks, pcs: map<Gid, Pc>, g: Gid)
    requires TableOk(t, pcs) && HoldersOk(t, pcs) && g in pcs && pcs[g].Leaving?
    ensures TableOk(Released(t, pcs[g].l), pcs[g := Dropping(pcs[g].op, pcs[g].l, pcs[g].answer)])
    ensures HoldersOk(Released(t, pcs[g].l), pcs[g := Dropping(pcs[g].op, pcs[g].l, pcs[g].answer)])
  {
    assert forall k :: k in pcs && Holds(pcs[k]) && pcs[k].l == pcs[g].l ==> k == g;
  }

  lemma UnlockKeepsLocks(t: Locks, pcs: map<Gid, Pc>, g: Gid)
    requires LocksOk(t, pcs) && g in pcs && pcs[g].Leaving?
    ensures LocksOk(Released(t, pcs[g].l), pcs[g := Dropping(pcs[g].op, pcs[g].l, pcs[g].answer)])
  {
    UnlockKeepsHolders(t, pcs, g);
    MoveKeepsCounts(t, Released(t, pcs[g].l), pcs, g, Dropping(pcs[g].op, pcs[g].l, pcs[g].answer));
  }

  lemma DropKeepsCounts(t: Locks, pcs: map<Gid, Pc>, g: Gid)
    requires TableOk(t, pcs) && CountsOk(t, pcs) && g in pcs
    ensures CountsOk(Dropped(t, pcs[g].op.key, pcs[g].l), pcs - {g})
    ensures t.objs[pcs[g].l].refs == 1 ==> forall k :: k in pcs && k != g ==> pcs[k].l != pcs[g].l
  {
    var mine := pcs[g].l;
    var t' := Dropped(t, pcs[g].op.key, mine);
    forall l | l in t'.objs
      ensures t'.objs[l].refs == |Users(pcs - {g}, l)| > 0
    {
      UsersGo(pcs, g, l);
    }
    if t.objs[mine].refs == 1 {
      assert g in Users(pcs, mine);
      OnlyUser(Users(pcs, mine), g);
      assert forall k :: k in pcs && pcs[k].l == mine ==> k in Users(pcs, mine);
    }
  }

  lemma DropKeepsLocks(t: Locks, pcs: map<Gid, Pc>, g: Gid)
    requires LocksOk(t, pcs) && g in pcs && pcs[g].Dropping?
    ensures LocksOk(Dropped(t, pcs[g].op.key, pcs[g].l), pcs - {g})
  {
    DropKeepsCounts(t, pcs, g);
    DropKeepsTable(t, pcs, g);
  }

  lemma DropKeepsTable(t: Locks, pcs: map<Gid, Pc>, g: Gid)
    requires TableOk(t, pcs) && HoldersOk(t, pcs) && g in pcs && pcs[g].Dropping?
    requires t.objs[pcs[g].l].refs == 1 ==> forall k :: k in pcs && k != g ==> pcs[k].l != pcs[g].l
    ensures TableOk(Dropped(t, pcs[g].op.key, pcs[g].l), pcs - {g})
    ensures HoldersOk(Dropped(t, pcs[g].op.key, pcs[g].l), pcs - {g})
  {
  }

  lemma OnlyUser(users: set<Gid>, g: Gid)
    requires g in users && |users| == 1
    ensures users == {g}
  {
    assert |users - {g}| == 0;
  }

  /** Two goroutines never hold the lock of the same job. */
  lemma NeverTwoHolders(t: Locks, pcs: map<Gid, Pc>, g: Gid, h: Gid)
    requires LocksOk(t, pcs) && g in pcs && h in pcs && Holds(pcs[g]) && Holds(pcs[h]) && pcs[g].op.key == pcs[h].op.key
    ensures g == h
  {
  }

  // --- The files in every state ---------------------------------------------------------------

  /** A mark names a revision the document has reached. */
  predicate MarkOk(doc: Doc) { doc.editRev >= 0 && (doc.exportedRev.Some? ==> 0 <= doc.exportedRev.value <= doc.editRev) }

  function Rev(d: Dir): int
  {
    if d.file.Some? && d.file.value.Whole? then d.file.value.doc.editRev else 0
  }

  /** Whoever opens the file finds a complete document, or no file. */
  ghost predicate DirOk(d: Dir)
  {
    && (d.file.Some? ==> d.file.value.Whole? && MarkOk(d.file.value.doc))
    && (!d.jobDir ==> !d.edits) && (!d.edits ==> d.file.None? && d.part.None?)
  }

  /** The saves that went through form the revisions 1, 2, ... up to the file's, whose events are
      those of the last. */
  ghost predicate SavesOk(d: Dir, saves: seq<Commit>)
  {
    && |saves| == Rev(d)
    && (forall k :: 0 <= k < |saves| ==> saves[k].base == k && saves[k].doc.editRev == k + 1)
    && (saves != [] ==> d.file.Some? && d.file.value.Whole? && d.file.value.doc.events == saves[|saves| - 1].doc.events)
  }

  predicate HasDoc(pc: Pc) { pc.Making? || pc.Opening? || pc.Filling? || pc.Renaming? }

  /** The document being written is still what the operation makes of the file. */
  ghost predicate Fits(pc: Pc, d: Dir, doomed: bool)
  {
    && SeedOk(pc.op.seed)
    && (HasDoc(pc) ==>
          && MarkOk(pc.doc) && (!doomed ==> Judge(pc.op, Current(d, pc.op.seed)) == Write(pc.doc))
          && (pc.Filling? ==> d.part == Some(Torn) || (doomed && d.part == None))
          && (pc.Renaming? ==> d.part == Some(Whole(pc.doc)) || (doomed && d.part == None)))
  }

  ghost predicate FilesOk(s: System)
  {
    && (forall key :: DirOk(DirOf(s, key)))
    && (forall key :: key !in s.doomed ==> SavesOk(DirOf(s, key), SavesOf(s, key)))
    && (forall g :: g in s.pcs ==> Fits(s.pcs[g], DirOf(s, s.pcs[g].op.key), s.pcs[g].op.key in s.doomed))
  }

  ghost predicate Inv(s: System) { LocksOk(s.locks, s.pcs) && FilesOk(s) }

  lemma JudgedIsMarked(op: Op, d: Dir)
    requires SeedOk(op.seed) && DirOk(d)
    ensures Judge(op, Current(d, op.seed)).Write? ==> MarkOk(Judge(op, Current(d, op.seed)).doc)
  {
  }

  /** What a step of work leaves behind is right for its goroutine and its directory. */
  ghost predicate LeftRight(s: System, g: Gid, ok: bool)
    requires g in s.pcs
  {
    var s' := WorkStep(s, g, ok);
    var key := s.pcs[g].op.key;
    && g in s'.pcs && s'.pcs[g].op == s.pcs[g].op && s'.pcs[g].l == s.pcs[g].l && Holds(s'.pcs[g]) == Holds(s.pcs[g])
    && DirOk(DirOf(s', key)) && Fits(s'.pcs[g], DirOf(s', key), key in s.doomed)
  }

  lemma ReadFits(s: System, g: Gid, ok: bool)
    requires g in s.pcs && s.pcs[g].Reading? && DirOk(DirOf(s, s.pcs[g].op.key)) && SeedOk(s.pcs[g].op.seed)
    ensures LeftRight(s, g, ok)
  {
    JudgedIsMarked(s.pcs[g].op, DirOf(s, s.pcs[g].op.key));
  }

  lemma WorkFits(s: System, g: Gid, ok: bool)
    requires g in s.pcs && DirOk(DirOf(s, s.pcs[g].op.key))
    requires Fits(s.pcs[g], DirOf(s, s.pcs[g].op.key), s.pcs[g].op.key in s.doomed)
    ensures LeftRight(s, g, ok)
  {
    if s.pcs[g].Reading? {
      ReadFits(s, g, ok);
    }
  }

  lemma WorkSaves(s: System, g: Gid, ok: bool)
    requires g in s.pcs && s.pcs[g].op.key !in s.doomed && SavesOk(DirOf(s, s.pcs[g].op.key), SavesOf(s, s.pcs[g].op.key))
    requires DirOk(DirOf(s, s.pcs[g].op.key)) && Fits(s.pcs[g], DirOf(s, s.pcs[g].op.key), false)
    ensures var s' := WorkStep(s, g, ok); SavesOk(DirOf(s', s.pcs[g].op.key), SavesOf(s', s.pcs[g].op.key))
  {
    var key := s.pcs[g].op.key;
    if s.pcs[g].Renaming? {
      RenameSaves(DirOf(s, key), SavesOf(s, key), s.pcs[g].op, s.pcs[g].doc, ok);
    } else {
      var s' := WorkStep(s, g, ok);
      assert DirOf(s', key).file == DirOf(s, key).file && SavesOf(s', key) == SavesOf(s, key);
    }
  }

  lemma RenameSaves(d: Dir, saves: seq<Commit>, op: Op, doc: Doc, ok: bool)
    requires SavesOk(d, saves) && d.part == Some(Whole(doc)) && Judge(op, Current(d, op.seed)) == Write(doc) && SeedOk(op.seed)
    ensures var (d', a) := Rename(d, doc, ok);
            SavesOk(d', if a.Done? && op.Save? then saves + [Commit(op.base, doc)] else saves)
  {
  }

  /** Work touches one goroutine, one directory and one list of saves. */
  lemma WorkTouches(s: System, g: Gid, ok: bool)
    requires g in s.pcs
    ensures var s' := WorkStep(s, g, ok); var key := s.pcs[g].op.key;
            && g in s'.pcs && s'.pcs == s.pcs[g := s'.pcs[g]] && s'.locks == s.locks && s'.doomed == s.doomed
            && forall k :: k != key ==> DirOf(s', k) == DirOf(s, k) && SavesOf(s', k) == SavesOf(s, k)
    ensures !Holds(s.pcs[g]) ==> WorkStep(s, g, ok) == s
  {
  }

  lemma SameJobHasNoDoc(t: Locks, pcs: map<Gid, Pc>, g: Gid, h: Gid)
    requires LocksOk(t, pcs) && g in pcs && h in pcs && g != h && Holds(pcs[g]) && pcs[g].op.key == pcs[h].op.key
    ensures !HasDoc(pcs[h])
  {
    if Holds(pcs[h]) {
      NeverTwoHolders(t, pcs, g, h);
    }
  }

  lemma WorkKeepsPcs(s: System, g: Gid, ok: bool, h: Gid)
    requires Inv(s) && g in s.pcs && h in s.pcs && Holds(s.pcs[g])
    ensures var s' := WorkStep(s, g, ok);
            h in s'.pcs && Fits(s'.pcs[h], DirOf(s', s'.pcs[h].op.key), s'.pcs[h].op.key in s'.doomed)
  {
    WorkTouches(s, g, ok);
    if h == g {
      assert DirOk(DirOf(s, s.pcs[g].op.key)) && Fits(s.pcs[g], DirOf(s, s.pcs[g].op.key), s.pcs[g].op.key in s.doomed);
      WorkFits(s, g, ok);
    } else {
      assert Fits(s.pcs[h], DirOf(s, s.pcs[h].op.key), s.pcs[h].op.key in s.doomed);
      if s.pcs[h].op.key == s.pcs[g].op.key {
        SameJobHasNoDoc(s.locks, s.pcs, g, h);
      }
    }
  }

  lemma WorkKeeps(s: System, g: Gid, ok: bool)
    requires Inv(s) && g in s.pcs && Holds(s.pcs[g])
    ensures Inv(WorkStep(s, g, ok))
  {
    WorkKeepsFiles(s, g, ok);
    WorkKeepsLocks(s, g, ok);
  }

  lemma WorkKeepsLocks(s: System, g: Gid, ok: bool)
    requires Inv(s) && g in s.pcs && Holds(s.pcs[g])
    ensures var s' := WorkStep(s, g, ok); LocksOk(s'.locks, s'.pcs)
  {
    var key := s.pcs[g].op.key;
    WorkTouches(s, g, ok);
    assert DirOk(DirOf(s, key)) && Fits(s.pcs[g], DirOf(s, key), key in s.doomed);
    WorkFits(s, g, ok);
    MoveKeepsLocks(s.locks, s.pcs, g, WorkStep(s, g, ok).pcs[g]);
  }

  lemma WorkKeepsFiles(s: System, g: Gid, ok: bool)
    requires Inv(s) && g in s.pcs && Holds(s.pcs[g])
    ensures FilesOk(WorkStep(s, g, ok))
  {
    var s', key := WorkStep(s, g, ok), s.pcs[g].op.key;
    WorkTouches(s, g, ok);
    assert DirOk(DirOf(s, key)) && Fits(s.pcs[g], DirOf(s, key), key in s.doomed);
    WorkFits(s, g, ok);
    forall k
      ensures DirOk(DirOf(s', k))
    {
      assert DirOk(DirOf(s, k));
    }
    forall k | k !in s'.doomed
      ensures SavesOk(DirOf(s', k), SavesOf(s', k))
    {
      assert SavesOk(DirOf(s, k), SavesOf(s, k));
      if k == key {
        WorkSaves(s, g, ok);
      }
    }
    forall h | h in s'.pcs
      ensures Fits(s'.pcs[h], DirOf(s', s'.pcs[h].op.key), s'.pcs[h].op.key in s'.doomed)
    {
      WorkKeepsPcs(s, g, ok, h);
    }
  }

  // --- The other steps -----------------------------------------------------------------------------

  /** Directories, removals and saves as they were; goroutines without a document come and go. */
  lemma LockMovesKeepFiles(s: System, s': System)
    requires FilesOk(s) && s'.dirs == s.dirs && s'.doomed == s.doomed && s'.saves == s.saves
    requires forall g :: g in s'.pcs ==> (g in s.pcs && s'.pcs[g] == s.pcs[g]) || (!HasDoc(s'.pcs[g]) && SeedOk(s'.pcs[g].op.seed))
    ensures FilesOk(s')
  {
    forall g | g in s'.pcs
      ensures Fits(s'.pcs[g], DirOf(s', s'.pcs[g].op.key), s'.pcs[g].op.key in s'.doomed)
    {
      if g in s.pcs && s'.pcs[g] == s.pcs[g] {
        assert Fits(s.pcs[g], DirOf(s, s.pcs[g].op.key), s.pcs[g].op.key in s.doomed);
      }
    }
    assert forall key :: DirOf(s', key) == DirOf(s, key) && SavesOf(s', key) == SavesOf(s, key);
  }

  /** One directory is made or taken away. */
  lemma DirMovesKeepFiles(s: System, s': System, key: Key)
    requires FilesOk(s) && s'.pcs == s.pcs && s'.saves == s.saves && DirOk(DirOf(s', key))
    requires forall k :: k != key ==> DirOf(s', k) == DirOf(s, k)
    requires s.doomed <= s'.doomed <= s.doomed + {key} && DirOf(s', key).part == None
    requires key in s'.doomed || (DirOf(s', key).file == DirOf(s, key).file == DirOf(s, key).part == None)
    ensures FilesOk(s')
  {
    forall g | g in s'.pcs
      ensures Fits(s'.pcs[g], DirOf(s', s'.pcs[g].op.key), s'.pcs[g].op.key in s'.doomed)
    {
      assert Fits(s.pcs[g], DirOf(s, s.pcs[g].op.key), s.pcs[g].op.key in s.doomed);
    }
    forall k
      ensures DirOk(DirOf(s', k)) && (k !in s'.doomed ==> SavesOk(DirOf(s', k), SavesOf(s', k)))
    {
      assert DirOk(DirOf(s, k));
      assert k !in s'.doomed ==> k !in s.doomed;
    }
  }

  lemma DirStepKeeps(s: System, a: Act)
    requires Inv(s) && (a.NewJob? || a.RemoveEdits? || a.RemoveDir?)
    ensures Inv(Step(s, a))
  {
    DirStepKeepsFiles(s, a);
    DirStepSparesLocks(s, a);
  }

  lemma DirStepSparesLocks(s: System, a: Act)
    requires a.NewJob? || a.RemoveEdits? || a.RemoveDir?
    ensures Step(s, a).locks == s.locks && Step(s, a).pcs == s.pcs
  {
  }

  lemma DirStepKeepsFiles(s: System, a: Act)
    requires FilesOk(s) && (a.NewJob? || a.RemoveEdits? || a.RemoveDir?)
    ensures FilesOk(Step(s, a))
  {
    assert DirOk(DirOf(s, a.key));
    if Step(s, a) != s {
      DirMovesKeepFiles(s, Step(s, a), a.key);
    }
  }

  lemma CallKeeps(s: System, g: Gid, op: Op)
    requires Inv(s)
    ensures Inv(Step(s, Call(g, op)))
  {
    if g !in s.pcs && SeedOk(op.seed) {
      EnterKeepsCounts(s.locks, s.pcs, g, op);
      EnterKeepsTable(s.locks, s.pcs, g, op);
      LockMovesKeepFiles(s, Step(s, Call(g, op)));
    }
  }

  lemma LockStepKeeps(s: System, a: Act)
    requires Inv(s) && (a.Acquire? || a.Unlock? || a.Drop?)
    ensures Inv(Step(s, a))
  {
    if Step(s, a) != s {
      assert Fits(s.pcs[a.g], DirOf(s, s.pcs[a.g].op.key), s.pcs[a.g].op.key in s.doomed);
      LockMovesKeepFiles(s, Step(s, a));
      match a {
        case Acquire(g) => AcquireKeepsLocks(s.locks, s.pcs, g);
        case Unlock(g) => UnlockKeepsLocks(s.locks, s.pcs, g);
        case Drop(g) => DropKeepsLocks(s.locks, s.pcs, g);
      }
    }
  }

  lemma WorkStepKeeps(s: System, g: Gid, ok: bool)
    requires Inv(s)
    ensures Inv(Step(s, Work(g, ok)))
  {
    if g in s.pcs {
      if Holds(s.pcs[g]) {
        WorkKeeps(s, g, ok);
      } else {
        WorkTouches(s, g, ok);
      }
    }
  }

  lemma StepKeeps(s: System, a: Act)
    requires Inv(s)
    ensures Inv(Step(s, a))
  {
    match a
    case Call(g, op) => CallKeeps(s, g, op);
    case Work(g, ok) => WorkStepKeeps(s, g, ok);
    case NewJob(_) => DirStepKeeps(s, a);
    case RemoveEdits(_) => DirStepKeeps(s, a);
    case RemoveDir(_) => DirStepKeeps(s, a);
    case Crash => LockMovesKeepFiles(s, Step(s, a));
    case _ => LockStepKeeps(s, a);
  }

  lemma {:induction false} EveryRunKeeps(acts: seq<Act>)
    ensures Inv(Run(acts))
  {
    if acts != [] {
      EveryRunKeeps(acts[..|acts| - 1]);
      StepKeeps(Run(acts[..|acts| - 1]), acts[|acts| - 1]);
    }
  }

  // --- What it adds up to ------------------------------------------------------------------------------

  /** A job has an entry in the lock table exactly while somebody uses it, and its count is the
      number of those who hold, wait or are about to leave; at most one of them holds. */
  lemma EntriesCountUsers(acts: seq<Act>, key: Key)
    ensures var s := Run(acts);
            && (key in s.locks.table <==> exists g :: g in s.pcs && s.pcs[g].op.key == key)
            && (key in s.locks.table ==>
                  s.locks.table[key] in s.locks.objs &&
                  s.locks.objs[s.locks.table[key]].refs == |set g | g in s.pcs && s.pcs[g].op.key == key|)
            && (forall g, h :: g in s.pcs && h in s.pcs && Holds(s.pcs[g]) && Holds(s.pcs[h]) && s.pcs[g].op.key == s.pcs[h].op.key
                  ==> g == h)
  {
    EveryRunKeeps(acts);
    var s := Run(acts);
    if key in s.locks.table {
      var l := s.locks.table[key];
      assert Users(s.pcs, l) == set g | g in s.pcs && s.pcs[g].op.key == key;
      assert |Users(s.pcs, l)| > 0;
      var g :| g in Users(s.pcs, l);
    }
    forall g, h | g in s.pcs && h in s.pcs && Holds(s.pcs[g]) && Holds(s.pcs[h]) && s.pcs[g].op.key == s.pcs[h].op.key
      ensures g == h
    {
      NeverTwoHolders(s.locks, s.pcs, g, h);
    }
  }

  /** Until a job is removed its saves are one line of revisions: the k-th to go through was based
      on revision k and made k + 1, so no two share a base, and the file is the last one's. */
  lemma SavesAreOneLine(acts: seq<Act>, key: Key, i: nat, j: nat)
    requires key !in Run(acts).doomed && i < |SavesOf(Run(acts), key)| && j < |SavesOf(Run(acts), key)|
    ensures var saves := SavesOf(Run(acts), key); var d := DirOf(Run(acts), key);
            && saves[i].base == i && saves[i].doc.editRev == i + 1
            && (saves[i].base == saves[j].base ==> i == j)
            && d.file.Some? && d.file.value.Whole? && d.file.value.doc.editRev == |saves|
            && d.file.value.doc.events == saves[|saves| - 1].doc.events
  {
    EveryRunKeeps(acts);
    assert SavesOk(DirOf(Run(acts), key), SavesOf(Run(acts), key));
  }

  /** The rename is the moment an operation takes effect: it turns the file's current document into
      what the operation makes of it, and a save's base is then the current revision. */
  lemma RenameIsThePoint(acts: seq<Act>, g: Gid)
    requires g in Run(acts).pcs && Run(acts).pcs[g].Renaming? && Run(acts).pcs[g].op.key !in Run(acts).doomed
    ensures var s := Run(acts); var op := s.pcs[g].op; var before := DirOf(s, op.key);
            var after := DirOf(Step(s, Work(g, true)), op.key);
            && Judge(op, Current(before, op.seed)) == Write(s.pcs[g].doc) && after.file == Some(Whole(s.pcs[g].doc))
            && (op.Save? ==> op.base == Rev(before) && Rev(after) == Rev(before) + 1)
            && (op.Mark? ==> op.rev == Rev(before) == Rev(after) && after.file.value.doc.exportedRev == Some(op.rev))
  {
    EveryRunKeeps(acts);
    var s := Run(acts);
    var op := s.pcs[g].op;
    assert Fits(s.pcs[g], DirOf(s, op.key), false) && DirOk(DirOf(s, op.key));
    assert op.key in s.dirs;
  }

  /** A refused save names the revision that is current at that moment. */
  lemma ConflictsAreTrue(acts: seq<Act>, g: Gid, rev: int)
    requires g in Run(acts).pcs && Run(acts).pcs[g].Reading?
    requires var s' := Step(Run(acts), Work(g, true)); g in s'.pcs && s'.pcs[g].Leaving? && s'.pcs[g].answer == DrumStore.Conflict(rev)
    ensures var op := Run(acts).pcs[g].op; op.Save? && rev == Rev(DirOf(Run(acts), op.key)) != op.base
  {
    EveryRunKeeps(acts);
    var s := Run(acts);
    assert Fits(s.pcs[g], DirOf(s, s.pcs[g].op.key), s.pcs[g].op.key in s.doomed) && DirOk(DirOf(s, s.pcs[g].op.key));
  }

  /** A reader without the lock finds no file or a complete revision, whatever was interrupted, and
      its mark never runs ahead of it. */
  lemma ReadersSeeRevisions(acts: seq<Act>, key: Key)
    ensures var d := DirOf(Run(acts), key);
            d.file == None || (d.file.value.Whole? && MarkOk(d.file.value.doc))
  {
    EveryRunKeeps(acts);
    assert DirOk(DirOf(Run(acts), key));
  }

  /** Nothing brings a removed job's directory back: its files stay away and a write says so. */
  lemma RemovedStaysRemoved(acts: seq<Act>, key: Key, a: Act)
    requires key in Run(acts).dirs && !DirOf(Run(acts), key).jobDir
    ensures var d := DirOf(Step(Run(acts), a), key); key in Step(Run(acts), a).dirs && !d.jobDir && !d.edits && d.file == None
  {
    EveryRunKeeps(acts);
    assert DirOk(DirOf(Run(acts), key));
    NoDirComesBack(Run(acts), key, a);
    StepKeeps(Run(acts), a);
    assert DirOk(DirOf(Step(Run(acts), a), key));
  }

  lemma NoDirComesBack(s: System, key: Key, a: Act)
    requires key in s.dirs && !s.dirs[key].jobDir
    ensures key in Step(s, a).dirs && !Step(s, a).dirs[key].jobDir
  {
    if a.Work? && a.g in s.pcs {
      WorkKeepsJobDir(s, a.g, a.ok, key);
    }
  }

  lemma WorkKeepsJobDir(s: System, g: Gid, ok: bool, key: Key)
    requires g in s.pcs && key in s.dirs
    ensures key in WorkStep(s, g, ok).dirs && WorkStep(s, g, ok).dirs[key].jobDir == s.dirs[key].jobDir
  {
  }

  lemma WriteToARemovedJob(s: System, g: Gid, ok: bool)
    requires g in s.pcs && s.pcs[g].Making? && !DirOf(s, s.pcs[g].op.key).jobDir
    ensures Step(s, Work(g, ok)).pcs[g] == Leaving(s.pcs[g].op, s.pcs[g].l, JobGone)
  {
  }
}
