/** The event handler keeps at most one live row for each path. */
module LivePath {
  import opened Model
  import opened Selection
  import opened StoreSpec
  import opened OpsSpec
  import opened Handler

  /** No two live rows at one path. */
  ghost predicate OneLive(rows: map<RowId, Row>) {
    forall i, j :: i in rows && j in rows && rows[i].Live() && rows[j].Live() && rows[i].loc == rows[j].loc ==> i == j
  }

  ghost predicate Tidy(db: Db) { UniqueKeys(db.rows) && OneLive(db.rows) }

  /** Nobody else's live row is at `loc`. */
  ghost predicate Free(rows: map<RowId, Row>, loc: FileLoc, key: FileKey) {
    forall i :: i in rows && rows[i].loc == loc && rows[i].Live() ==> rows[i].key == key
  }

  lemma UpsertTidy(db: Db, seen: Identity, loc: FileLoc, readyAt: Ts, priority: nat, now: Ts, kind: RootKind)
    requires Tidy(db) && Free(db.rows, loc, seen.key)
    ensures Tidy(Upsert(db, seen, loc, readyAt, priority, now, kind))
  {
    var db' := Upsert(db, seen, loc, readyAt, priority, now, kind);
    match FindByKey(db.rows, seen.key)
    case None => OneRowTidy(db, db', NextId(db.rows.Keys), loc, seen.key);
    case Some(i) => OneRowTidy(db, db', i, loc, seen.key);
  }

  /** One row is written, at a path that is free for it. */
  lemma OneRowTidy(db: Db, db': Db, i: RowId, loc: FileLoc, key: FileKey)
    requires Tidy(db) && Free(db.rows, loc, key)
    requires i in db'.rows && db'.rows == db.rows[i := db'.rows[i]]
    requires db'.rows[i].key == key && db'.rows[i].loc == loc
    requires forall j :: j in db.rows && db.rows[j].key == key ==> j == i
    ensures Tidy(db')
  {
  }

  lemma RenameFrees(rows: map<RowId, Row>, key: FileKey, loc: FileLoc, now: Ts)
    ensures Free(Rename(rows, key, loc, now), loc, key)
  {
  }

  /** Who is live where after a rename: the moved row at its new path, others where they were. */
  lemma RenamedLive(rows: map<RowId, Row>, key: FileKey, loc: FileLoc, now: Ts, i: RowId)
    requires i in rows
    ensures var r := Rename(rows, key, loc, now)[i];
      && r.key == rows[i].key
      && (r.Live() ==> rows[i].Live() && r.loc == if rows[i].key == key then loc else rows[i].loc)
  {
  }

  lemma RenameTidy(db: Db, key: FileKey, loc: FileLoc, now: Ts)
    requires Tidy(db)
    ensures Tidy(db.(rows := Rename(db.rows, key, loc, now))) && Free(Rename(db.rows, key, loc, now), loc, key)
  {
    var rows := Rename(db.rows, key, loc, now);
    RenameFrees(db.rows, key, loc, now);
    forall i, j | i in rows && j in rows && rows[i].Live() && rows[j].Live() && rows[i].loc == rows[j].loc
      ensures i == j
    {
      RenamedLive(db.rows, key, loc, now, i);
      RenamedLive(db.rows, key, loc, now, j);
    }
    forall i, j | i in rows && j in rows && rows[i].key == rows[j].key ensures i == j {
      RenamedLive(db.rows, key, loc, now, i);
      RenamedLive(db.rows, key, loc, now, j);
    }
  }

  /** Marking rows missing never adds a live row. */
  ghost predicate Fewer(rows: map<RowId, Row>, rows': map<RowId, Row>) {
    && rows'.Keys == rows.Keys
    && forall i :: i in rows ==>
         rows'[i].key == rows[i].key && rows'[i].loc == rows[i].loc && (rows'[i].Live() ==> rows[i].Live())
  }

  lemma FewerTidy(db: Db, db': Db)
    requires Tidy(db) && Fewer(db.rows, db'.rows)
    ensures Tidy(db')
  {
  }

  lemma MarkGoneTidy(sc: Scene, db: Db, loc: FileLoc)
    requires Tidy(db)
    ensures Tidy(MarkGone(sc, db, loc).0)
  {
    var rows := MarkMissing(db.rows, loc, sc.now);
    FewerTidy(db, db.(rows := rows));
    assert Fewer(rows, MarkMissingPrefix(rows, loc, sc.now));
    FewerTidy(db.(rows := rows), MarkGone(sc, db, loc).0);
  }

  /** Whatever held the path, it is free for the file afterwards. */
  lemma ClearPathTidy(sc: Scene, db: Db, loc: FileLoc, id: Identity)
    requires Tidy(db)
    ensures Tidy(ClearPath(sc, db, loc, id)) && Free(ClearPath(sc, db, loc, id).rows, loc, id.key)
  {
    match FindByPath(db.rows, loc)
    case None =>
    case Some(i) =>
      if db.rows[i].key != id.key {
        if FindByKey(db.rows, id.key).Some? { RenameTidy(db, id.key, loc, sc.now); }
        else { FewerTidy(db, db.(rows := MarkMissing(db.rows, loc, sc.now))); }
      }
  }

  lemma UpsertSeenTidy(sc: Scene, db: Db, loc: FileLoc, id: Identity)
    requires Tidy(db)
    ensures Tidy(UpsertSeen(sc, db, loc, id).0)
  {
    ClearPathTidy(sc, db, loc, id);
    if loc.root in sc.kinds {
      UpsertTidy(ClearPath(sc, db, loc, id), id, loc, SettledAt(sc), PRIORITY_EVENT, sc.now, sc.kinds[loc.root]);
    }
  }

  lemma VanishedTidy(sc: Scene, db: Db, loc: FileLoc, ev: Event)
    requires Tidy(db)
    ensures Tidy(Vanished(sc, db, loc, ev).0)
  {
    match Look(sc, loc)
    case Absent => MarkGoneTidy(sc, db, loc);
    case IsFile(id) => UpsertSeenTidy(sc, db, loc, id);
    case _ =>
  }

  lemma PushReadyTidy(sc: Scene, db: Db, loc: FileLoc)
    requires Tidy(db)
    ensures Tidy(PushReady(sc, db, loc).0)
  {
    if Look(sc, loc).IsFile? && loc.root in sc.kinds {
      var id := Look(sc, loc).identity;
      var i := FindByKey(db.rows, id.key);
      if i.Some? && db.rows[i.value].state.Settling? && db.rows[i.value].loc == loc {
        UpsertTidy(db, id, loc, SettledAt(sc), PRIORITY_EVENT, sc.now, sc.kinds[loc.root]);
      }
    }
  }

  lemma MoveKnownTidy(sc: Scene, db: Db, i: RowId, to: FileLoc, id: Identity)
    requires Tidy(db) && i in db.rows && db.rows[i].key == id.key
    ensures Tidy(MoveKnown(sc, db, i, to, id).0)
  {
    var moved := db.(rows := Rename(db.rows, id.key, to, sc.now));
    RenameTidy(db, id.key, to, sc.now);
    if db.rows[i].state.Missing? && to.root in sc.kinds {
      RestoreTidy(moved, i, to, id, sc.now, sc.kinds[to.root]);
    }
  }

  lemma RestoreTidy(db: Db, i: RowId, to: FileLoc, id: Identity, now: Ts, kind: RootKind)
    requires Tidy(db) && i in db.rows && db.rows[i].key == id.key && db.rows[i].loc == to && Free(db.rows, to, id.key)
    ensures Tidy(RestoreOrReset(db, id.key, id, now, kind))
  {
    if db.rows[i].state.Missing? { UpsertTidy(db, id, to, now, db.rows[i].priority, now, kind); }
  }

  lemma MoveFileTidy(sc: Scene, db: Db, from: FileLoc, to: FileLoc, id: Identity)
    requires Tidy(db)
    ensures Tidy(MoveFile(sc, db, from, to, id).0)
  {
    match FindByKey(db.rows, id.key)
    case Some(i) =>
      MoveKnownTidy(sc, db, i, to, id);
      MarkGoneTidy(sc, MoveKnown(sc, db, i, to, id).0, from);
    case None =>
      MarkGoneTidy(sc, db, from);
      UpsertSeenTidy(sc, ClearSource(sc, db, from).0, to, id);
  }

  /** The events about single files, and what a rename finds at its target is not a directory. */
  ghost predicate FileLevel(sc: Scene, ev: Event) {
    || ev.Closed? || ev.MovedIn? || ev.Modified? || ev.RemovedUnknown?
    || (ev.Renamed? && (sc.excludedDir(ev.to.rel) || !Look(sc, ev.to).NotFile?))
  }

  lemma EventTidy(sc: Scene, db: Db, ev: Event)
    requires Tidy(db) && FileLevel(sc, ev)
    ensures Tidy(Handle(sc, db, ev).0)
  {
    match ev
    case Closed(loc) => if Look(sc, loc).IsFile? { UpsertSeenTidy(sc, db, loc, Look(sc, loc).identity); }
    case MovedIn(loc) => if Look(sc, loc).IsFile? { UpsertSeenTidy(sc, db, loc, Look(sc, loc).identity); }
    case Modified(loc) => PushReadyTidy(sc, db, loc);
    case RemovedUnknown(loc) => VanishedTidy(sc, db, loc, ev);
    case Renamed(from, to) =>
      VanishedTidy(sc, db, from, ev);
      if Look(sc, to).IsFile? { MoveFileTidy(sc, db, from, to, Look(sc, to).identity); }
  }

  /**
   * Any sequence of such events, each in its own file system and with or without back-pressure, keeps one live
   * row a path.
   */
  lemma {:induction false} OneLiveRowPerPath(scenes: nat -> Scene, db: Db, evs: seq<Event>, n: nat)
    requires Tidy(db) && forall j :: 0 <= j < |evs| ==> FileLevel(scenes(n + j), evs[j])
    ensures Tidy(HandleAll(scenes, db, evs, n))
    decreases |evs|
  {
    if evs != [] {
      EventTidy(scenes(n), db, evs[0]);
      var next := Handle(scenes(n), db, evs[0]).0;
      forall j | 0 <= j < |evs[1..]| ensures FileLevel(scenes(n + 1 + j), evs[1..][j]) {
        assert FileLevel(scenes(n + (j + 1)), evs[j + 1]);
      }
      OneLiveRowPerPath(scenes, next, evs[1..], n + 1);
    }
  }
}
