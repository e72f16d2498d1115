/**
 * What an event that brings a file must do: its row is at the path, asks to be looked at when it has settled, and the
 * rows of other files that held the path are lost. A rename does this at its target and clears its source.
 */
module Arrival {
  import opened Wrappers
  import opened Model
  import opened Selection
  import opened StoreSpec
  import opened Rules
  import opened OpsSpec
  import opened Handler
  import opened Marking
  import opened PathText
  import RenameBack

  // ---------------------------------------------------------------- what becomes of the file's own row

  /** The row of a file nobody knew. */
  ghost predicate IsNew(r: Row, id: Identity, loc: FileLoc, due: Ts, now: Ts) {
    && r.key == id.key && r.loc == loc && r.domain == id.domain && r.size == id.size && r.mtime == id.mtime
    && r.ctime == id.ctime && r.nlink == id.nlink && r.uid == id.uid && r.mode == id.mode
    && r.state == Settling && r.readyAt == Some(due) && r.priority == 0 && r.attempts == 0
    && r.enq == Some(Fingerprint(id.size, id.mtime, id.ctime)) && r.magicOk.None? && r.heavySince.None?
    && r.group.None? && r.sparse.None? && r.full.None? && r.skipReason.None? && r.prev.None? && r.lastError.None?
    && r.firstSeen == now && r.lastSeen == now && r.updated == now
  }

  /** Size and times are those the row knows; a remote file system has no usable ctime. */
  ghost predicate Unchanged(r: Row, id: Identity, kind: RootKind) {
    r.size == id.size && r.mtime == id.mtime && (kind == Local ==> r.ctime == id.ctime)
  }

  /** What the pipeline found out about the contents. */
  ghost predicate KeepsFindings(r: Row, r': Row) {
    && r'.sparse == r.sparse && r'.full == r.full && r'.magicOk == r.magicOk && r'.group == r.group
    && r'.attempts == r.attempts && r'.heavySince == r.heavySince && r'.skipReason == r.skipReason
  }

  ghost predicate ForgetsFindings(r': Row) {
    && r'.sparse.None? && r'.full.None? && r'.magicOk.None? && r'.group.None? && r'.attempts == 0
    && r'.heavySince.None?
  }

  /** Row `r` becomes `r'` when its file is seen at `loc`, to be looked at again at `due`. */
  ghost predicate IsSeenAgain(r: Row, r': Row, id: Identity, loc: FileLoc, due: Ts, now: Ts, kind: RootKind) {
    && r'.key == r.key && r'.loc == loc && r'.lastSeen == now && r'.updated == now && r'.firstSeen == r.firstSeen
    && r'.enq == Some(Fingerprint(id.size, id.mtime, id.ctime)) && r'.uid == id.uid && r'.mode == id.mode
    && r'.domain == r.domain && r'.size == r.size && r'.mtime == r.mtime && r'.ctime == r.ctime && r'.nlink == r.nlink
    && r'.lastError == r.lastError && r'.hashVersion == r.hashVersion
    && r'.prev == (if Unchanged(r, id, kind) || r.state in {Settling, Sized, Hashed} then r.prev else Some(r.state))
    && (if Unchanged(r, id, kind) then KeepsFindings(r, r') else ForgetsFindings(r'))
    && (if !Unchanged(r, id, kind) then
          && r'.readyAt == Some(due)
          && (if r.skipReason == Some(UserUndo) then r'.state == r.state && r'.skipReason == r.skipReason
              else r'.state == Settling && r'.skipReason.None?)
        else if r.state == Missing then
          && r'.state == (if r.prev.Some? && r.prev.value !in {Missing, Gone} then r.prev.value else Settling)
          && r'.readyAt == (if r'.state in {Settling, Sized, Hashed} then Some(due) else None)
        else
          && r'.state == r.state
          && r'.readyAt == (if r.state in {Settling, Sized, Hashed} then Some(due) else r.readyAt))
  }

  lemma ReseenIs(r: Row, id: Identity, loc: FileLoc, due: Ts, priority: nat, now: Ts, kind: RootKind)
    ensures IsSeenAgain(r, Reseen(r, id, loc, due, priority, now, kind), id, loc, due, now, kind)
    ensures Reseen(r, id, loc, due, priority, now, kind).priority ==
            if r.priority < priority then r.priority else priority
  {
  }

  /** A group loses its canonical pointer exactly if the row it names leaves the group. */
  ghost predicate PointersFollow(db: Db, db': Db, i: RowId)
    requires i in db.rows && i in db'.rows
  {
    && db'.groups.Keys == db.groups.Keys
    && forall g :: g in db.groups ==>
         db'.groups[g] ==
           if db.rows[i].group == Some(g) && db'.rows[i].group.None? && db.groups[g].canonical == Some(i)
           then db.groups[g].(canonical := None) else db.groups[g]
  }

  // ---------------------------------------------------------------- what becomes of the others

  /** Rows other than `i` that were live at the path are lost, the rest stay. */
  ghost predicate OthersMakeWay(rows: map<RowId, Row>, rows': map<RowId, Row>, i: Option<RowId>, area: Area, now: Ts) {
    forall j :: j in rows && i != Some(j) ==>
      j in rows' && rows'[j] == if OnDisk(rows[j]) && area.Has(rows[j].loc) then Lost(rows[j], now) else rows[j]
  }

  /** The row is the first live one at the path, so nobody is asked to make way. */
  ghost predicate HoldsPath(rows: map<RowId, Row>, i: RowId, loc: FileLoc)
    requires i in rows
  {
    && OnDisk(rows[i]) && rows[i].loc == loc
    && forall j :: j in rows && j != i && OnDisk(rows[j]) && rows[j].loc == loc ==> i.n < j.n
  }

  // ---------------------------------------------------------------- an event at one path

  /** Nothing keeps the file from being queued. */
  ghost predicate Welcome(sc: Scene, loc: FileLoc, id: Identity) {
    !sc.rejects(loc, id.size) && sc.hasRoom(id.uid) && loc.root in sc.kinds
  }

  /** The event says that something came to `loc`, and asks about it. */
  ghost predicate ComesTo(sc: Scene, ev: Event, loc: FileLoc) {
    || (ev == Closed(loc) && !sc.rejectsName(loc.rel))
    || (ev == MovedIn(loc) && !sc.excludedDir(loc.rel))
    || LeavesFrom(sc, ev, loc)
  }

  /** The event says that something left `loc`, and asks whether anything is there now. */
  ghost predicate LeavesFrom(sc: Scene, ev: Event, loc: FileLoc) {
    && loc.rel != ""
    && (|| ev == RemovedUnknown(loc)
        || (ev.Renamed? && ev.from == loc && OutOfSight(sc, ev.to))
        || (ev.RenamedDir? && ev.from == loc && sc.excludedDir(ev.to.rel)))
  }

  ghost predicate Arrives(sc: Scene, ev: Event, loc: FileLoc, id: Identity) {
    FileThere(sc, loc, id) && Welcome(sc, loc, id) && ComesTo(sc, ev, loc)
  }

  lemma LeavingAsks(sc: Scene, db: Db, ev: Event, loc: FileLoc)
    requires LeavesFrom(sc, ev, loc)
    ensures Handle(sc, db, ev) == Vanished(sc, db, loc, ev)
  {
    if ev.Renamed? {
      NothingIsAbsent(sc, ev.to);
      forall id ensures FileThere(sc, ev.to, id) <==> Look(sc, ev.to) == IsFile(id) { FileIsSeen(sc, ev.to, id); }
    }
  }

  lemma ArrivalUpserts(sc: Scene, db: Db, ev: Event, loc: FileLoc, id: Identity)
    requires FileThere(sc, loc, id) && ComesTo(sc, ev, loc)
    ensures Handle(sc, db, ev) == UpsertSeen(sc, db, loc, id)
  {
    FileIsSeen(sc, loc, id);
    if LeavesFrom(sc, ev, loc) { LeavingAsks(sc, db, ev, loc); }
  }

  /** A file that the filter rejects is ignored; one that the queue has no room for asks for a rescan. */
  lemma UnwelcomeChangesNothing(sc: Scene, db: Db, ev: Event, loc: FileLoc, id: Identity)
    requires FileThere(sc, loc, id) && ComesTo(sc, ev, loc) && (sc.rejects(loc, id.size) || !sc.hasRoom(id.uid))
    ensures Handle(sc, db, ev) == (db, Ok(if sc.rejects(loc, id.size) then [] else [Rescan(BackPressure)]))
  {
    ArrivalUpserts(sc, db, ev, loc, id);
  }

  /** An event about the root of a share is refused, and a path that is not watched is not even asked about. */
  lemma NotAskedAbout(sc: Scene, db: Db, loc: FileLoc, to: FileLoc)
    ensures loc.rel == "" ==> Handle(sc, db, RemovedUnknown(loc)) == (db, Err(EmptyPath))
    ensures loc.rel == "" ==> Handle(sc, db, RenamedDir(loc, to)) == (db, Err(EmptyPath))
    ensures sc.rejectsName(loc.rel) ==> Handle(sc, db, Closed(loc)) == (db, Ok([]))
    ensures sc.excludedDir(loc.rel) ==> Handle(sc, db, MovedIn(loc)) == (db, Ok([]))
    ensures forall reason :: Handle(sc, db, NeedsRescan(reason)) == (db, Ok([Rescan(reason)]))
  {
  }

  ghost predicate NobodyKnows(rows: map<RowId, Row>, key: FileKey) {
    forall i :: i in rows ==> rows[i].key != key
  }

  ghost predicate StrangerSettles(sc: Scene, db: Db, db': Db, loc: FileLoc, id: Identity, area: Area, n: RowId) {
    && n !in db.rows && db'.rows.Keys == db.rows.Keys + {n} && db'.groups == db.groups
    && IsNew(db'.rows[n], id, loc, Clamp(sc.now + sc.settleDelay), sc.now)
    && OthersMakeWay(db.rows, db'.rows, None, area, sc.now)
  }

  lemma PathClearedForStranger(sc: Scene, db: Db, mid: Db, loc: FileLoc, id: Identity)
    requires NobodyKnows(db.rows, id.key) && mid == ClearPath(sc, db, loc, id)
    ensures OthersMakeWay(db.rows, mid.rows, None, ThePath(loc), sc.now)
    ensures mid.rows.Keys == db.rows.Keys && mid.groups == db.groups && NobodyKnows(mid.rows, id.key)
  {
    assert FindByKey(db.rows, id.key).None?;
  }

  lemma StrangerIsInserted(mid: Db, id: Identity, loc: FileLoc, due: Ts, now: Ts, kind: RootKind)
    requires NobodyKnows(mid.rows, id.key)
    ensures var n := NextId(mid.rows.Keys);
      Upsert(mid, id, loc, due, 0, now, kind) ==
      mid.(rows := mid.rows[n := NewRow(id, loc, Settling, Some(due), 0, now)])
  {
    assert FindByKey(mid.rows, id.key).None?;
  }

  lemma SeenStranger(sc: Scene, db: Db, loc: FileLoc, id: Identity)
    requires Welcome(sc, loc, id) && NobodyKnows(db.rows, id.key)
    ensures var (db', said) := UpsertSeen(sc, db, loc, id);
      said == Ok([]) && StrangerSettles(sc, db, db', loc, id, ThePath(loc), NextId(db.rows.Keys))
  {
    var mid := ClearPath(sc, db, loc, id);
    PathClearedForStranger(sc, db, mid, loc, id);
    StrangerIsInserted(mid, id, loc, SettledAt(sc), sc.now, sc.kinds[loc.root]);
    StrangerAdded(sc, db, mid, loc, id, NextId(db.rows.Keys), UpsertSeen(sc, db, loc, id).0);
  }

  lemma StrangerAdded(sc: Scene, db: Db, mid: Db, loc: FileLoc, id: Identity, n: RowId, db': Db)
    requires mid.rows.Keys == db.rows.Keys && mid.groups == db.groups && n !in db.rows
    requires OthersMakeWay(db.rows, mid.rows, None, ThePath(loc), sc.now)
    requires db' == mid.(rows := mid.rows[n := NewRow(id, loc, Settling, Some(SettledAt(sc)), 0, sc.now)])
    ensures StrangerSettles(sc, db, db', loc, id, ThePath(loc), n)
  {
  }

  // ---------------------------------------------------------------- a file the tables know

  /** The file's row is seen again, and its pointers follow. */
  ghost predicate KnownSettles(sc: Scene, db: Db, db': Db, loc: FileLoc, id: Identity, i: RowId)
    requires i in db.rows && loc.root in sc.kinds
  {
    && db'.rows.Keys == db.rows.Keys && PointersFollow(db, db', i)
    && IsSeenAgain(db.rows[i], db'.rows[i], id, loc, Clamp(sc.now + sc.settleDelay), sc.now, sc.kinds[loc.root])
    && db'.rows[i].priority == 0
  }

  ghost predicate WhoseKey(rows: map<RowId, Row>, i: RowId, key: FileKey) {
    i in rows && rows[i].key == key && forall j :: j in rows && rows[j].key == key ==> j == i
  }

  lemma FoundByKey(rows: map<RowId, Row>, i: RowId, key: FileKey)
    requires WhoseKey(rows, i, key)
    ensures FindByKey(rows, key) == Some(i)
  {
  }

  /** Clearing the path moves at most the file's own row, and marks the others unless it holds the path. */
  ghost predicate ClearedFor(rows: map<RowId, Row>, rows': map<RowId, Row>, i: RowId, loc: FileLoc, now: Ts)
    requires i in rows
  {
    && rows'.Keys == rows.Keys && (rows'[i] == rows[i] || rows'[i] == rows[i].(loc := loc, updated := now))
    && if HoldsPath(rows, i, loc) then rows' == rows else OthersMakeWay(rows, rows', Some(i), ThePath(loc), now)
  }

  lemma PathClearedForKnown(sc: Scene, db: Db, mid: Db, loc: FileLoc, id: Identity, i: RowId)
    requires WhoseKey(db.rows, i, id.key) && mid == ClearPath(sc, db, loc, id)
    ensures ClearedFor(db.rows, mid.rows, i, loc, sc.now) && mid.groups == db.groups
  {
    FoundByKey(db.rows, i, id.key);
    match FindByPath(db.rows, loc)
    case None =>
    case Some(f) =>
      if f == i {
      } else {
        RenameMakesWay(db.rows, i, id.key, loc, sc.now);
      }
  }

  lemma RenameMakesWay(rows: map<RowId, Row>, i: RowId, key: FileKey, loc: FileLoc, now: Ts)
    requires WhoseKey(rows, i, key)
    ensures var rows' := Rename(rows, key, loc, now);
      && rows'.Keys == rows.Keys && rows'[i] == rows[i].(loc := loc, updated := now)
      && OthersMakeWay(rows, rows', Some(i), ThePath(loc), now)
  {
  }

  lemma SeenKnown(sc: Scene, db: Db, loc: FileLoc, id: Identity, i: RowId)
    requires Welcome(sc, loc, id) && WhoseKey(db.rows, i, id.key)
    ensures var (db', said) := UpsertSeen(sc, db, loc, id);
      && said == Ok([]) && KnownSettles(sc, db, db', loc, id, i)
      && if HoldsPath(db.rows, i, loc) then OthersStay(db.rows, db'.rows, i)
         else OthersMakeWay(db.rows, db'.rows, Some(i), ThePath(loc), sc.now)
  {
    var mid := ClearPath(sc, db, loc, id);
    PathClearedForKnown(sc, db, mid, loc, id, i);
    KnownUpserted(sc, db, mid, loc, id, i, UpsertSeen(sc, db, loc, id).0);
  }

  ghost predicate OthersStay(rows: map<RowId, Row>, rows': map<RowId, Row>, i: RowId) {
    forall j :: j in rows && j != i ==> j in rows' && rows'[j] == rows[j]
  }

  lemma KnownUpserted(sc: Scene, db: Db, mid: Db, loc: FileLoc, id: Identity, i: RowId, db': Db)
    requires WhoseKey(db.rows, i, id.key) && ClearedFor(db.rows, mid.rows, i, loc, sc.now) && mid.groups == db.groups
    requires loc.root in sc.kinds
    requires db' == Upsert(mid, id, loc, SettledAt(sc), 0, sc.now, sc.kinds[loc.root])
    ensures KnownSettles(sc, db, db', loc, id, i)
    ensures if HoldsPath(db.rows, i, loc) then OthersStay(db.rows, db'.rows, i)
            else OthersMakeWay(db.rows, db'.rows, Some(i), ThePath(loc), sc.now)
  {
    assert WhoseKey(mid.rows, i, id.key);
    FoundByKey(mid.rows, i, id.key);
    UpsertOfKnown(db, mid, i, id, loc, SettledAt(sc), 0, sc.now, sc.kinds[loc.root], db');
  }

  /** The upsert writes the file's row only; it does not matter where the row was. */
  lemma UpsertOfKnown(db: Db, mid: Db, i: RowId, id: Identity, loc: FileLoc, due: Ts, priority: nat, now: Ts,
                      kind: RootKind, db': Db)
    requires i in db.rows && i in mid.rows && FindByKey(mid.rows, id.key) == Some(i) && mid.groups == db.groups
    requires mid.rows[i] == db.rows[i] || mid.rows[i] == db.rows[i].(loc := loc, updated := now)
    requires db' == Upsert(mid, id, loc, due, priority, now, kind)
    ensures db'.rows.Keys == mid.rows.Keys && OthersStay(mid.rows, db'.rows, i) && PointersFollow(db, db', i)
    ensures IsSeenAgain(db.rows[i], db'.rows[i], id, loc, due, now, kind)
    ensures db'.rows[i].priority == if db.rows[i].priority < priority then db.rows[i].priority else priority
  {
    ReseenIs(mid.rows[i], id, loc, due, priority, now, kind);
  }

  /** A file that is seen where an event says one is: its row settles at the path, whoever held the path is lost. */
  lemma ArrivalSettles(sc: Scene, db: Db, ev: Event, loc: FileLoc, id: Identity, i: RowId)
    requires Arrives(sc, ev, loc, id) && WhoseKey(db.rows, i, id.key)
    ensures var (db', said) := Handle(sc, db, ev);
      && said == Ok([]) && KnownSettles(sc, db, db', loc, id, i)
      && if HoldsPath(db.rows, i, loc) then OthersStay(db.rows, db'.rows, i)
         else OthersMakeWay(db.rows, db'.rows, Some(i), ThePath(loc), sc.now)
  {
    ArrivalUpserts(sc, db, ev, loc, id);
    SeenKnown(sc, db, loc, id, i);
  }

  /** The same of a file that has no row yet: it gets one. */
  lemma NewArrivalSettles(sc: Scene, db: Db, ev: Event, loc: FileLoc, id: Identity)
    requires Arrives(sc, ev, loc, id) && NobodyKnows(db.rows, id.key)
    ensures var (db', said) := Handle(sc, db, ev);
      said == Ok([]) && exists n :: StrangerSettles(sc, db, db', loc, id, ThePath(loc), n)
  {
    ArrivalUpserts(sc, db, ev, loc, id);
    SeenStranger(sc, db, loc, id);
  }

  /** A write pushes the date of a row that still settles at this very path. */
  lemma WriteIsPushed(sc: Scene, db: Db, loc: FileLoc, id: Identity, i: RowId)
    requires FileThere(sc, loc, id) && WhoseKey(db.rows, i, id.key) && loc.root in sc.kinds
    requires db.rows[i].state == Settling && db.rows[i].loc == loc
    ensures var (db', said) := Handle(sc, db, Modified(loc));
      said == Ok([]) && KnownSettles(sc, db, db', loc, id, i) && OthersStay(db.rows, db'.rows, i)
  {
    FileIsSeen(sc, loc, id);
    FoundByKey(db.rows, i, id.key);
    UpsertOfKnown(db, db, i, id, loc, SettledAt(sc), 0, sc.now, sc.kinds[loc.root], Handle(sc, db, Modified(loc)).0);
  }

  /** A write anywhere else, or to a row that does not settle, changes nothing. */
  lemma OtherWriteIsIgnored(sc: Scene, db: Db, loc: FileLoc, id: Identity)
    requires FileThere(sc, loc, id)
    requires forall i :: WhoseKey(db.rows, i, id.key) ==> db.rows[i].state != Settling || db.rows[i].loc != loc
    requires UniqueKeys(db.rows)
    ensures Handle(sc, db, Modified(loc)) == (db, Ok([]))
  {
    FileIsSeen(sc, loc, id);
    var i := FindByKey(db.rows, id.key);
    if i.Some? { assert WhoseKey(db.rows, i.value, id.key); }
  }

  // ---------------------------------------------------------------- a rename to a file

  ghost predicate RenamedToFile(sc: Scene, from: FileLoc, to: FileLoc, id: Identity) {
    && from.rel != "" && !sc.excludedDir(to.rel) && FileThere(sc, to, id) && !sc.rejects(to, id.size)
  }

  /** The row moves with its progress; one that was missing is seen again, to be looked at now. */
  ghost predicate MovesTo(sc: Scene, db: Db, r': Row, i: RowId, to: FileLoc, id: Identity)
    requires i in db.rows && (db.rows[i].state == Missing ==> to.root in sc.kinds)
  {
    if db.rows[i].state == Missing then IsSeenAgain(db.rows[i], r', id, to, sc.now, sc.now, sc.kinds[to.root])
    else r' == db.rows[i].(loc := to, updated := sc.now)
  }

  lemma TargetTakesRow(sc: Scene, db: Db, i: RowId, to: FileLoc, id: Identity)
    requires WhoseKey(db.rows, i, id.key) && (db.rows[i].state == Missing ==> to.root in sc.kinds)
    ensures var (mid, said) := MoveKnown(sc, db, i, to, id);
      && said == Ok([]) && mid.rows.Keys == db.rows.Keys && PointersFollow(db, mid, i)
      && MovesTo(sc, db, mid.rows[i], i, to, id)
      && OthersMakeWay(db.rows, mid.rows, Some(i), ThePath(to), sc.now)
  {
    var moved := db.(rows := Rename(db.rows, id.key, to, sc.now));
    RenameMakesWay(db.rows, i, id.key, to, sc.now);
    if db.rows[i].state == Missing {
      assert WhoseKey(moved.rows, i, id.key);
      FoundByKey(moved.rows, i, id.key);
      UpsertOfKnown(db, moved, i, id, to, sc.now, moved.rows[i].priority, sc.now, sc.kinds[to.root],
                    MoveKnown(sc, db, i, to, id).0);
    }
  }

  lemma RenameOfKnown(sc: Scene, db: Db, from: FileLoc, to: FileLoc, id: Identity, i: RowId)
    requires RenamedToFile(sc, from, to, id) && FindByKey(db.rows, id.key) == Some(i)
    requires MoveKnown(sc, db, i, to, id).1 == Ok([])
    ensures Handle(sc, db, Renamed(from, to)) == ClearSource(sc, MoveKnown(sc, db, i, to, id).0, from)
  {
    FileIsSeen(sc, to, id);
  }

  function AfterLoss(r: Row, area: Area, now: Ts): Row {
    if OnDisk(r) && area.Has(r.loc) then Lost(r, now) else r
  }

  lemma LostOnce(r: Row, from: FileLoc, to: FileLoc, now: Ts)
    ensures AfterLoss(AfterLoss(r, ThePath(to), now), FromHereDown(from), now) ==
            AfterLoss(r, TargetAndSource(to, from), now)
    ensures AfterLoss(r, ThePath(to), now).loc == r.loc
    ensures OnDisk(AfterLoss(r, ThePath(to), now)) <==> OnDisk(r) && r.loc != to
  {
  }

  lemma TargetThenSource(rows: map<RowId, Row>, mid: map<RowId, Row>, rows': map<RowId, Row>, i: RowId,
                         from: FileLoc, to: FileLoc, now: Ts)
    requires i in rows && mid.Keys == rows.Keys && OthersMakeWay(rows, mid, Some(i), ThePath(to), now)
    requires LosesExactly(mid, rows', FromHereDown(from), now)
    ensures rows'.Keys == rows.Keys && OthersMakeWay(rows, rows', Some(i), TargetAndSource(to, from), now)
    ensures !AtOrBelow(mid[i].loc, from) ==> rows'[i] == mid[i]
  {
    forall j | j in rows && j != i ensures rows'[j] == AfterLoss(rows[j], TargetAndSource(to, from), now) {
      assert mid[j] == AfterLoss(rows[j], ThePath(to), now);
      assert rows'[j] == AfterLoss(mid[j], FromHereDown(from), now);
      LostOnce(rows[j], from, to, now);
    }
  }

  /** The row at the target is not below the source, nor is one that was lost there. */
  lemma CountedBelow(rows: map<RowId, Row>, mid: map<RowId, Row>, i: RowId, from: FileLoc, to: FileLoc, now: Ts)
    requires i in rows && mid.Keys == rows.Keys && OthersMakeWay(rows, mid, Some(i), ThePath(to), now)
    requires mid[i].loc == to && !AtOrBelow(to, from)
    ensures LiveIn(mid, OnlyBelow(from)) == LiveIn(rows, OnlyBelow(from)) - {i}
  {
    var area := OnlyBelow(from);
    assert !area.Has(to);
    forall j | j in rows && j != i
      ensures OnDisk(mid[j]) && area.Has(mid[j].loc) <==> OnDisk(rows[j]) && area.Has(rows[j].loc)
    {
      assert mid[j] == AfterLoss(rows[j], ThePath(to), now);
      LostOnce(rows[j], from, to, now);
    }
  }

  /**
   * A file with a row is renamed and nothing is left at the source: the row is at the target with its progress, what
   * was live at the target or at and below the source is lost, everything else stays, and what lay below is counted.
   */
  lemma KnownIsRenamed(sc: Scene, db: Db, from: FileLoc, to: FileLoc, id: Identity, i: RowId)
    requires RenamedToFile(sc, from, to, id) && NothingThere(sc, from) && !AtOrBelow(to, from)
    requires WhoseKey(db.rows, i, id.key) && (db.rows[i].state == Missing ==> to.root in sc.kinds)
    ensures var (db', said) := Handle(sc, db, Renamed(from, to));
      && db'.rows.Keys == db.rows.Keys && PointersFollow(db, db', i) && MovesTo(sc, db, db'.rows[i], i, to, id)
      && OthersMakeWay(db.rows, db'.rows, Some(i), TargetAndSource(to, from), sc.now)
      && said == Ok(Report(from, |LiveIn(db.rows, OnlyBelow(from)) - {i}|))
  {
    var mid := MoveKnown(sc, db, i, to, id).0;
    FoundByKey(db.rows, i, id.key);
    TargetTakesRow(sc, db, i, to, id);
    RenameOfKnown(sc, db, from, to, id, i);
    NothingIsAbsent(sc, from);
    BothLose(sc, mid, from);
    TargetThenSource(db.rows, mid.rows, ClearSource(sc, mid, from).0.rows, i, from, to, sc.now);
    CountedBelow(db.rows, mid.rows, i, from, to, sc.now);
  }

  /** With something still at the source, or no answer about it, only the target is written. */
  lemma KnownIsRenamedOnly(sc: Scene, db: Db, from: FileLoc, to: FileLoc, id: Identity, i: RowId)
    requires RenamedToFile(sc, from, to, id) && !NothingThere(sc, from)
    requires WhoseKey(db.rows, i, id.key) && (db.rows[i].state == Missing ==> to.root in sc.kinds)
    ensures var (db', said) := Handle(sc, db, Renamed(from, to));
      && db'.rows.Keys == db.rows.Keys && PointersFollow(db, db', i) && MovesTo(sc, db, db'.rows[i], i, to, id)
      && OthersMakeWay(db.rows, db'.rows, Some(i), ThePath(to), sc.now) && said == Ok([])
  {
    FoundByKey(db.rows, i, id.key);
    TargetTakesRow(sc, db, i, to, id);
    RenameOfKnown(sc, db, from, to, id, i);
    NothingIsAbsent(sc, from);
  }

  lemma RenameOfStranger(sc: Scene, db: Db, from: FileLoc, to: FileLoc, id: Identity)
    requires RenamedToFile(sc, from, to, id) && NobodyKnows(db.rows, id.key) && NothingThere(sc, from)
    ensures var cleared := MarkGone(sc, db, from);
      Handle(sc, db, Renamed(from, to)) ==
      if cleared.1.Err? then cleared else AndThen(cleared, UpsertSeen(sc, cleared.0, to, id))
  {
    FileIsSeen(sc, to, id);
    NothingIsAbsent(sc, from);
    assert FindByKey(db.rows, id.key).None?;
  }

  lemma SourceThenTarget(sc: Scene, db: Db, mid: Db, db': Db, from: FileLoc, to: FileLoc, id: Identity, n: RowId)
    requires LosesExactly(db.rows, mid.rows, FromHereDown(from), sc.now) && mid.groups == db.groups
    requires StrangerSettles(sc, mid, db', to, id, ThePath(to), n)
    ensures StrangerSettles(sc, db, db', to, id, TargetAndSource(to, from), n)
  {
  }

  /** A file without a row is renamed: the source is cleared, and the file is queued at the target if there is room. */
  lemma StrangerIsRenamed(sc: Scene, db: Db, from: FileLoc, to: FileLoc, id: Identity)
    requires RenamedToFile(sc, from, to, id) && NothingThere(sc, from) && NobodyKnows(db.rows, id.key)
    requires to.root in sc.kinds
    ensures var (db', said) := Handle(sc, db, Renamed(from, to));
      var report := Report(from, |LiveIn(db.rows, OnlyBelow(from))|);
      if sc.hasRoom(id.uid) then
        said == Ok(report) && exists n :: StrangerSettles(sc, db, db', to, id, TargetAndSource(to, from), n)
      else
        && said == Ok(report + [Rescan(BackPressure)])
        && LosesExactly(db.rows, db'.rows, FromHereDown(from), sc.now) && db'.groups == db.groups
  {
    RenameOfStranger(sc, db, from, to, id);
    BothLose(sc, db, from);
    var mid := MarkGone(sc, db, from).0;
    if sc.hasRoom(id.uid) {
      SeenStranger(sc, mid, to, id);
      SourceThenTarget(sc, db, mid, UpsertSeen(sc, mid, to, id).0, from, to, id, NextId(mid.rows.Keys));
    }
    ReportsInOrder(sc, db, mid, from, to, id);
  }

  lemma ReportsInOrder(sc: Scene, db: Db, mid: Db, from: FileLoc, to: FileLoc, id: Identity)
    requires mid == MarkGone(sc, db, from).0 && MarkGone(sc, db, from).1.Ok? && !sc.rejects(to, id.size)
    requires sc.hasRoom(id.uid) ==> UpsertSeen(sc, mid, to, id).1 == Ok([])
    ensures var said := MarkGone(sc, db, from).1.value;
      AndThen(MarkGone(sc, db, from), UpsertSeen(sc, mid, to, id)) ==
      if sc.hasRoom(id.uid) then (UpsertSeen(sc, mid, to, id).0, Ok(said)) else (mid, Ok(said + [Rescan(BackPressure)]))
  {
    var said := MarkGone(sc, db, from).1.value;
    assert said + [] == said;
  }

  // ---------------------------------------------------------------- directories

  ghost predicate DirThere(sc: Scene, loc: FileLoc) {
    || sc.statx(loc) == Err(NotRegular)
    || (sc.statx(loc).Ok? && (sc.statx(loc).value.mode / 0x1000) % 16 == 4)
  }

  /** A row moves along with its directory and keeps what lay below it; any other row stays. */
  ghost predicate MovesAlong(r: Row, r': Row, from: FileLoc, to: FileLoc, now: Ts) {
    if AtOrBelow(r.loc, from) then
      && r' == r.(loc := r'.loc, updated := now) && r'.loc.root == to.root
      && (NamesFile(r.loc.rel) ==>
            Components(r'.loc.rel) ==
            Components(Trim(to.rel)) + Components(r.loc.rel)[|Components(Trim(from.rel))|..])
    else r' == r
  }

  /** A directory is renamed: everything at or below it moves along; if nothing did, its contents are unknown. */
  lemma DirIsRenamed(sc: Scene, db: Db, ev: Event, from: FileLoc, to: FileLoc)
    requires ev == RenamedDir(from, to) || (ev == Renamed(from, to) && DirThere(sc, to))
    requires from.rel != "" && !sc.excludedDir(to.rel)
    ensures var (db', said) := Handle(sc, db, ev);
      && db'.groups == db.groups && db'.rows.Keys == db.rows.Keys
      && (forall i :: i in db.rows ==> MovesAlong(db.rows[i], db'.rows[i], from, to, sc.now))
      && said == Ok(if exists i :: i in db.rows && AtOrBelow(db.rows[i].loc, from) then [] else [WalkDir(to)])
  {
    assert DirThere(sc, to) ==> Look(sc, to) == NotFile;
    var rows' := RenamePrefix(db.rows, from, to, sc.now);
    forall i | i in db.rows ensures MovesAlong(db.rows[i], rows'[i], from, to, sc.now) {
      UnderIffBelow(from, db.rows[i].loc);
      if NamesFile(db.rows[i].loc.rel) { RenameBack.MovesExactlyTheSubtree(db.rows, from, to, sc.now, i); }
    }
    forall i | i in db.rows ensures Under(from, db.rows[i].loc) <==> AtOrBelow(db.rows[i].loc, from) {
      UnderIffBelow(from, db.rows[i].loc);
    }
    var moved := set i | i in db.rows && Under(from, db.rows[i].loc);
    if i :| i in db.rows && AtOrBelow(db.rows[i].loc, from) { assert i in moved; }
  }

  /** A directory that appears is walked unless it is an excluded one; the tables wait for the walk. */
  lemma NewDirIsWalked(sc: Scene, db: Db, ev: Event, loc: FileLoc)
    requires ev == CreatedDir(loc) || (DirThere(sc, loc) && (ev == MovedIn(loc) || LeavesFrom(sc, ev, loc)))
    ensures Handle(sc, db, ev) == (db, Ok(if sc.excludedDir(loc.rel) then [] else [WalkDir(loc)]))
  {
    assert DirThere(sc, loc) ==> Look(sc, loc) == NotFile;
    if LeavesFrom(sc, ev, loc) { LeavingAsks(sc, db, ev, loc); }
  }

  // ---------------------------------------------------------------- no answer

  /** An error that may pass: not one of those that last, and no claim that nothing is there. */
  ghost predicate MayPass(sc: Scene, loc: FileLoc) {
    sc.statx(loc).Err? && sc.statx(loc).error.Io? && sc.statx(loc).error.errno !in {1, 2, 6, 13, 19, 36, 40, 75}
  }

  ghost predicate AsksAt(sc: Scene, ev: Event, loc: FileLoc) {
    match ev
    case Closed(at) => at == loc && !sc.rejectsName(loc.rel)
    case MovedIn(at) => at == loc && !sc.excludedDir(loc.rel)
    case Modified(at) => at == loc
    case RemovedUnknown(at) => at == loc && loc.rel != ""
    case Renamed(from, to) =>
      (to == loc && !sc.excludedDir(loc.rel)) || (from == loc && loc.rel != "" && OutOfSight(sc, to))
    case RenamedDir(from, to) => from == loc && loc.rel != "" && sc.excludedDir(to.rel)
    case _ => false
  }

  /** While the answer is an error that may pass, the whole event comes again a second later and nothing is written. */
  lemma PassingErrorRetries(sc: Scene, db: Db, ev: Event, loc: FileLoc)
    requires AsksAt(sc, ev, loc) && MayPass(sc, loc)
    ensures Handle(sc, db, ev) == (db, Ok([Retry(ev, Clamp(sc.now + 1_000))]))
  {
    assert Look(sc, loc) == AskAgain;
  }

  /** An answer that is neither a file, a directory, nothing, nor an error that may pass: the event does nothing. */
  lemma LastingErrorIsIgnored(sc: Scene, db: Db, ev: Event, loc: FileLoc)
    requires AsksAt(sc, ev, loc) && sc.statx(loc).Err? && sc.statx(loc) != Err(NotRegular)
    requires !MayPass(sc, loc) && !NothingThere(sc, loc)
    ensures Handle(sc, db, ev) == (db, Ok([]))
  {
    assert Look(sc, loc) == NoAnswer;
  }
}
