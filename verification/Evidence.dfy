/** The event handler marks no row missing without evidence that its file is gone from its path. */
module Evidence {
  import opened Model
  import opened StoreSpec
  import opened OpsSpec
  import opened PathText
  import opened Handler

  // ---------------------------------------------------------------- the file system as it is

  datatype Thing = Nothing | Regular(key: FileKey) | SomethingElse

  /** What really is at each path while the event is handled; below nothing there is nothing. */
  ghost predicate IsTree(there: FileLoc -> Thing) {
    forall p: FileLoc, q: FileLoc ::
      p.root == q.root && there(p).Nothing? && Components(Trim(p.rel)) <= Components(q.rel) ==> there(q).Nothing?
  }

  /** The answers of `statx` that claim something are true of it. */
  ghost predicate Truthful(sc: Scene, there: FileLoc -> Thing) {
    forall p: FileLoc :: match Look(sc, p)
      case IsFile(id) => there(p) == Regular(id.key)
      case NotFile => there(p).SomethingElse?
      case Absent => there(p).Nothing?
      case _ => true
  }

  ghost predicate Snapshot(sc: Scene, there: FileLoc -> Thing) {
    IsTree(there) && Truthful(sc, there)
  }

  /** The row's file is where the row says. */
  ghost predicate AtItsPath(there: FileLoc -> Thing, r: Row) {
    there(r.loc) == Regular(r.key)
  }

  /** Row `i` became missing, and its file was indeed not at its path. */
  ghost predicate Justified(there: FileLoc -> Thing, db: Db, db': Db) {
    forall i :: i in db.rows && i in db'.rows && !db.rows[i].state.Missing? && db'.rows[i].state.Missing? ==>
      !AtItsPath(there, db.rows[i])
  }

  /** Rows keep their key; one that is not missing afterwards still has its path, or its file is at its new one. */
  ghost predicate Traced(there: FileLoc -> Thing, db: Db, db': Db) {
    && db.rows.Keys <= db'.rows.Keys
    && forall i :: i in db.rows ==>
         && db'.rows[i].key == db.rows[i].key
         && (db'.rows[i].loc == db.rows[i].loc || AtItsPath(there, db'.rows[i]))
  }

  ghost predicate Evident(there: FileLoc -> Thing, db: Db, db': Db) {
    Justified(there, db, db') && Traced(there, db, db')
  }

  /** One after the other: a row marked in the second step was still at its old path, or at one its file is at. */
  lemma EvidentTrans(there: FileLoc -> Thing, a: Db, b: Db, c: Db)
    requires Evident(there, a, b) && Evident(there, b, c)
    ensures Evident(there, a, c)
  {
    forall i | i in a.rows
      ensures c.rows[i].loc == a.rows[i].loc || AtItsPath(there, c.rows[i])
      ensures !a.rows[i].state.Missing? && c.rows[i].state.Missing? ==> !AtItsPath(there, a.rows[i])
    {
      assert i in b.rows;
    }
  }

  // ---------------------------------------------------------------- the branches

  lemma UpsertEvident(there: FileLoc -> Thing, db: Db, seen: Identity, loc: FileLoc, readyAt: Ts, priority: nat,
                      now: Ts, kind: RootKind)
    requires there(loc) == Regular(seen.key)
    ensures Evident(there, db, Upsert(db, seen, loc, readyAt, priority, now, kind))
  {
  }

  lemma RenameEvident(there: FileLoc -> Thing, db: Db, key: FileKey, loc: FileLoc, now: Ts)
    requires there(loc) == Regular(key)
    ensures Evident(there, db, db.(rows := Rename(db.rows, key, loc, now)))
  {
  }

  lemma MarkOthersEvident(there: FileLoc -> Thing, db: Db, loc: FileLoc, key: FileKey, now: Ts)
    requires there(loc) == Regular(key) && forall i :: i in db.rows ==> db.rows[i].key != key
    ensures Evident(there, db, db.(rows := MarkMissing(db.rows, loc, now)))
  {
  }

  lemma GoneBelow(there: FileLoc -> Thing, dir: FileLoc, loc: FileLoc)
    requires IsTree(there) && there(dir).Nothing? && (loc == dir || Under(dir, loc))
    ensures there(loc).Nothing?
  {
    SqlUnderIsUnder(Trim(dir.rel), loc.rel);
  }

  lemma MarkPathEvident(there: FileLoc -> Thing, db: Db, loc: FileLoc, now: Ts)
    requires there(loc).Nothing?
    ensures Evident(there, db, db.(rows := MarkMissing(db.rows, loc, now)))
  {
  }

  lemma MarkBelowEvident(there: FileLoc -> Thing, db: Db, dir: FileLoc, now: Ts)
    requires IsTree(there) && there(dir).Nothing?
    ensures Evident(there, db, db.(rows := MarkMissingPrefix(db.rows, dir, now)))
  {
    forall i | i in db.rows && Under(dir, db.rows[i].loc) ensures !AtItsPath(there, db.rows[i]) {
      GoneBelow(there, dir, db.rows[i].loc);
    }
  }

  lemma MarkGoneEvident(sc: Scene, there: FileLoc -> Thing, db: Db, loc: FileLoc)
    requires IsTree(there) && there(loc).Nothing?
    ensures Evident(there, db, MarkGone(sc, db, loc).0)
  {
    var mid := db.(rows := MarkMissing(db.rows, loc, sc.now));
    MarkPathEvident(there, db, loc, sc.now);
    MarkBelowEvident(there, mid, loc, sc.now);
    EvidentTrans(there, db, mid, MarkGone(sc, db, loc).0);
  }

  lemma ClearPathEvident(sc: Scene, there: FileLoc -> Thing, db: Db, loc: FileLoc, id: Identity)
    requires there(loc) == Regular(id.key)
    ensures Evident(there, db, ClearPath(sc, db, loc, id))
  {
    match FindByPath(db.rows, loc)
    case None =>
    case Some(i) =>
      if db.rows[i].key != id.key {
        if FindByKey(db.rows, id.key).Some? { RenameEvident(there, db, id.key, loc, sc.now); }
        else { MarkOthersEvident(there, db, loc, id.key, sc.now); }
      }
  }

  lemma UpsertSeenEvident(sc: Scene, there: FileLoc -> Thing, db: Db, loc: FileLoc, id: Identity)
    requires there(loc) == Regular(id.key)
    ensures Evident(there, db, UpsertSeen(sc, db, loc, id).0)
  {
    if !sc.rejects(loc, id.size) && sc.hasRoom(id.uid) {
      var cleared := ClearPath(sc, db, loc, id);
      ClearPathEvident(sc, there, db, loc, id);
      if loc.root in sc.kinds {
        UpsertEvident(there, cleared, id, loc, SettledAt(sc), PRIORITY_EVENT, sc.now, sc.kinds[loc.root]);
        EvidentTrans(there, db, cleared, UpsertSeen(sc, db, loc, id).0);
      }
    }
  }

  lemma VanishedEvident(sc: Scene, there: FileLoc -> Thing, db: Db, loc: FileLoc, ev: Event)
    requires Snapshot(sc, there)
    ensures Evident(there, db, Vanished(sc, db, loc, ev).0)
  {
    if loc.rel != "" {
      match Look(sc, loc)
      case Absent => MarkGoneEvident(sc, there, db, loc);
      case IsFile(id) => UpsertSeenEvident(sc, there, db, loc, id);
      case _ =>
    }
  }

  lemma ClearSourceEvident(sc: Scene, there: FileLoc -> Thing, db: Db, from: FileLoc)
    requires Snapshot(sc, there)
    ensures Evident(there, db, ClearSource(sc, db, from).0)
  {
    if from.rel != "" && Look(sc, from).Absent? { MarkGoneEvident(sc, there, db, from); }
  }

  /** A directory rename marks nothing; the rows it moves are out of reach of this statement about paths. */
  lemma MoveDirJustified(sc: Scene, there: FileLoc -> Thing, db: Db, from: FileLoc, to: FileLoc)
    requires Snapshot(sc, there)
    ensures Justified(there, db, MoveDir(sc, db, from, to).0)
  {
    if from.rel != "" && sc.excludedDir(to.rel) { VanishedEvident(sc, there, db, from, RenamedDir(from, to)); }
  }

  lemma MoveKnownEvident(sc: Scene, there: FileLoc -> Thing, db: Db, i: RowId, to: FileLoc, id: Identity)
    requires i in db.rows && db.rows[i].key == id.key && there(to) == Regular(id.key)
    ensures Evident(there, db, MoveKnown(sc, db, i, to, id).0)
  {
    var moved := db.(rows := Rename(db.rows, id.key, to, sc.now));
    RenameEvident(there, db, id.key, to, sc.now);
    if db.rows[i].state.Missing? && to.root in sc.kinds {
      RestoreEvident(there, moved, id, to, sc.now, sc.kinds[to.root]);
      EvidentTrans(there, db, moved, MoveKnown(sc, db, i, to, id).0);
    }
  }

  lemma RestoreEvident(there: FileLoc -> Thing, db: Db, id: Identity, to: FileLoc, now: Ts, kind: RootKind)
    requires there(to) == Regular(id.key)
    requires forall i :: i in db.rows && db.rows[i].key == id.key ==> db.rows[i].loc == to
    ensures Evident(there, db, RestoreOrReset(db, id.key, id, now, kind))
  {
    match FindByKey(db.rows, id.key)
    case None =>
    case Some(i) => UpsertEvident(there, db, id, to, now, db.rows[i].priority, now, kind);
  }

  lemma MoveFileEvident(sc: Scene, there: FileLoc -> Thing, db: Db, from: FileLoc, to: FileLoc, id: Identity)
    requires Snapshot(sc, there) && there(to) == Regular(id.key)
    ensures Evident(there, db, MoveFile(sc, db, from, to, id).0)
  {
    match FindByKey(db.rows, id.key)
    case Some(i) =>
      var moved := MoveKnown(sc, db, i, to, id).0;
      MoveKnownEvident(sc, there, db, i, to, id);
      ClearSourceEvident(sc, there, moved, from);
      EvidentTrans(there, db, moved, ClearSource(sc, moved, from).0);
    case None =>
      var cleared := ClearSource(sc, db, from).0;
      ClearSourceEvident(sc, there, db, from);
      UpsertSeenEvident(sc, there, cleared, to, id);
      EvidentTrans(there, db, cleared, UpsertSeen(sc, cleared, to, id).0);
  }

  lemma MoveAnyJustified(sc: Scene, there: FileLoc -> Thing, db: Db, from: FileLoc, to: FileLoc)
    requires Snapshot(sc, there)
    ensures Justified(there, db, MoveAny(sc, db, from, to).0)
  {
    var ev := Renamed(from, to);
    VanishedEvident(sc, there, db, from, ev);
    match Look(sc, to)
    case NotFile => MoveDirJustified(sc, there, db, from, to);
    case IsFile(id) => MoveFileEvident(sc, there, db, from, to, id);
    case _ =>
  }

  lemma AddOrMoveInEvident(sc: Scene, there: FileLoc -> Thing, db: Db, ev: Event, loc: FileLoc)
    requires Snapshot(sc, there)
    ensures Evident(there, db, AddOrMoveIn(sc, db, ev, loc).0)
  {
    if Look(sc, loc).IsFile? { UpsertSeenEvident(sc, there, db, loc, Look(sc, loc).identity); }
  }

  lemma PushReadyEvident(sc: Scene, there: FileLoc -> Thing, db: Db, loc: FileLoc)
    requires Snapshot(sc, there)
    ensures Evident(there, db, PushReady(sc, db, loc).0)
  {
    if Look(sc, loc).IsFile? && loc.root in sc.kinds {
      UpsertEvident(there, db, Look(sc, loc).identity, loc, SettledAt(sc), PRIORITY_EVENT, sc.now, sc.kinds[loc.root]);
    }
  }

  /**
   * Apart from the two events in which the kernel itself reports a deletion, every row an event
   * newly marks missing is one whose file is not at the path the row records.
   */
  lemma NoMissingWithoutEvidence(sc: Scene, there: FileLoc -> Thing, db: Db, ev: Event)
    requires Snapshot(sc, there) && !ev.Removed? && !ev.RemovedDir?
    ensures Justified(there, db, Handle(sc, db, ev).0)
  {
    match ev
    case Closed(loc) => AddOrMoveInEvident(sc, there, db, ev, loc);
    case MovedIn(loc) => AddOrMoveInEvident(sc, there, db, ev, loc);
    case Modified(loc) => PushReadyEvident(sc, there, db, loc);
    case Renamed(from, to) => MoveAnyJustified(sc, there, db, from, to);
    case RenamedDir(from, to) => MoveDirJustified(sc, there, db, from, to);
    case RemovedUnknown(loc) => VanishedEvident(sc, there, db, loc, ev);
    case _ =>
  }
}
