/**
 * The operations of the watcher, the scans and the maintenance jobs, as functions
 * on the tables. Each is one transaction.
 */
module OpsSpec {
  import opened Wrappers
  import opened Model
  import opened Selection
  import opened StoreSpec
  import opened Rules
  import opened PathText

  // ---------------------------------------------------------------- upsert

  /** Columns of an existing row after the upsert. */
  function Reseen(r: Row, seen: Identity, loc: FileLoc, readyAt: Ts, priority: nat, now: Ts, kind: RootKind): Row {
    ApplyUpsert(r, DecideUpsert(r, seen, kind, readyAt, priority), seen, loc, now)
  }

  /** A group whose canonical row just left it loses its pointer. */
  function DropPointer(groups: map<GroupId, Group>, g: Option<GroupId>, row: RowId): map<GroupId, Group> {
    match g
    case None => groups
    case Some(x) =>
      if x in groups && groups[x].canonical == Some(row) then groups[x := groups[x].(canonical := None)] else groups
  }

  function Upsert(db: Db, seen: Identity, loc: FileLoc, readyAt: Ts, priority: nat, now: Ts, kind: RootKind): Db {
    match FindByKey(db.rows, seen.key)
    case None =>
      db.(rows := db.rows[NextId(db.rows.Keys) := NewRow(seen, loc, Settling, Some(readyAt), priority, now)])
    case Some(i) =>
      var r := Reseen(db.rows[i], seen, loc, readyAt, priority, now, kind);
      Db(db.rows[i := r], if r.group.None? then DropPointer(db.groups, db.rows[i].group, i) else db.groups)
  }

  // ---------------------------------------------------------------- scans

  datatype ScanRow = ScanRow(seen: Identity, loc: FileLoc, state: State, readyAt: Option<Ts>, priority: nat)

  /** `INSERT ... ON CONFLICT DO NOTHING`. */
  function ScanInsertOne(rows: map<RowId, Row>, b: ScanRow, now: Ts): map<RowId, Row> {
    if FindByKey(rows, b.seen.key).Some? then rows
    else rows[NextId(rows.Keys) := NewRow(b.seen, b.loc, b.state, b.readyAt, b.priority, now)]
  }

  function ScanInsert(rows: map<RowId, Row>, batch: seq<ScanRow>, now: Ts): map<RowId, Row>
    decreases |batch|
  {
    if batch == [] then rows else ScanInsert(ScanInsertOne(rows, batch[0], now), batch[1..], now)
  }

  /** A sized row of the root that no queue date was set for. */
  predicate Parked(r: Row, root: int) {
    r.loc.root == root && r.state.Sized? && r.readyAt.None?
  }

  predicate HasPeer(rows: map<RowId, Row>, i: RowId)
    requires i in rows
  {
    exists j ::
      j in rows && j != i && rows[j].Live() && rows[j].domain == rows[i].domain && rows[j].size == rows[i].size
  }

  /** Wake the rows with a peer of their size, then close the rest as distinct. */
  function ScanPhaseB(rows: map<RowId, Row>, root: int, now: Ts): map<RowId, Row> {
    map i | i in rows ::
      if !Parked(rows[i], root) then rows[i]
      else if HasPeer(rows, i) then rows[i].(readyAt := Some(now), updated := now)
      else rows[i].(state := Distinct, updated := now)
  }

  // ---------------------------------------------------------------- missing marks and renames

  function SetMissing(r: Row, now: Ts): Row {
    r.(prev := Some(r.state), state := Missing, readyAt := None, heavySince := None, updated := now)
  }

  predicate Under(dir: FileLoc, loc: FileLoc) {
    loc.root == dir.root && SqlUnder(Trim(dir.rel), loc.rel)
  }

  function MarkMissing(rows: map<RowId, Row>, loc: FileLoc, now: Ts): map<RowId, Row> {
    map i | i in rows :: if rows[i].loc == loc && rows[i].Live() then SetMissing(rows[i], now) else rows[i]
  }

  function MarkMissingPrefix(rows: map<RowId, Row>, dir: FileLoc, now: Ts): map<RowId, Row> {
    map i | i in rows :: if Under(dir, rows[i].loc) && rows[i].Live() then SetMissing(rows[i], now) else rows[i]
  }

  /** The row of `key` moves to `loc`; a live row of another file there becomes missing. */
  function RenamedRow(r: Row, key: FileKey, loc: FileLoc, now: Ts): Row {
    if r.key == key then r.(loc := loc, updated := now)
    else if r.loc == loc && r.Live() then SetMissing(r, now)
    else r
  }

  function Rename(rows: map<RowId, Row>, key: FileKey, loc: FileLoc, now: Ts): map<RowId, Row> {
    map i | i in rows :: RenamedRow(rows[i], key, loc, now)
  }

  function RenamePrefixRow(r: Row, from: FileLoc, to: FileLoc, now: Ts): Row {
    if Under(from, r.loc) then
      r.(loc := FileLoc(to.root, Moved(Trim(from.rel), Trim(to.rel), r.loc.rel)), updated := now)
    else r
  }

  function RenamePrefix(rows: map<RowId, Row>, from: FileLoc, to: FileLoc, now: Ts): map<RowId, Row> {
    map i | i in rows :: RenamePrefixRow(rows[i], from, to, now)
  }

  /** A missing row whose file is seen again is upserted at the path it already has. */
  function RestoreOrReset(db: Db, key: FileKey, seen: Identity, now: Ts, kind: RootKind): Db {
    match FindByKey(db.rows, key)
    case None => db
    case Some(i) =>
      if !db.rows[i].state.Missing? then db
      else Upsert(db, seen, db.rows[i].loc, now, db.rows[i].priority, now, kind)
  }

  // ---------------------------------------------------------------- presence

  function PresenceFinish(rows: map<RowId, Row>, root: int, seen: set<FileKey>, scan: Ts): map<RowId, Row> {
    map i | i in rows :: if Unseen(rows[i], root, seen, scan) then SetMissing(rows[i], scan) else rows[i]
  }

  /** A live row of the root that the walk did not see and nobody wrote since it began. */
  predicate Unseen(r: Row, root: int, seen: set<FileKey>, scan: Ts) {
    r.loc.root == root && r.Live() && r.updated < scan && r.key !in seen
  }

  /** A file the presence walk saw: its missing row is upserted with what the row knows of it. */
  function PresenceSeen(db: Db, key: FileKey, fp: Fingerprint, loc: FileLoc, now: Ts, kind: RootKind): Db {
    match FindByKey(db.rows, key)
    case None => db
    case Some(i) =>
      var r := db.rows[i];
      if !r.state.Missing? then db
      else Upsert(db, Identity(key, r.domain, fp.size, fp.mtime, fp.ctime, r.nlink, r.uid, r.mode),
                  loc, now, r.priority, now, kind)
  }

  function PresenceExpire(rows: map<RowId, Row>, root: int, cutoff: Ts, now: Ts): map<RowId, Row> {
    map i | i in rows ::
      if rows[i].loc.root == root && rows[i].state.Missing? && rows[i].updated < cutoff
      then rows[i].(state := Gone, updated := now) else rows[i]
  }

  // ---------------------------------------------------------------- maintenance

  function Park(rows: map<RowId, Row>, domain: nat, err: string, now: Ts): map<RowId, Row> {
    map i | i in rows ::
      if rows[i].domain == domain && rows[i].state.Hashed? && rows[i].readyAt.Some?
      then rows[i].(readyAt := None, lastError := Some(err), updated := now) else rows[i]
  }

  function Unpark(rows: map<RowId, Row>, domain: nat, now: Ts): map<RowId, Row> {
    map i | i in rows ::
      if rows[i].domain == domain && rows[i].state.Hashed? && rows[i].readyAt.None?
      then rows[i].(readyAt := Some(now), updated := now) else rows[i]
  }

  predicate UnderAny(dirs: seq<FileLoc>, loc: FileLoc) {
    exists d :: d in dirs && Under(d, loc)
  }

  function Requeue(rows: map<RowId, Row>, dirs: seq<FileLoc>, now: Ts): map<RowId, Row> {
    map i | i in rows ::
      if rows[i].state.Verified? && UnderAny(dirs, rows[i].loc)
      then rows[i].(state := Hashed, readyAt := Some(now), updated := now) else rows[i]
  }

  predicate Expired(r: Row, cutoff: Ts) {
    r.state.Gone? && r.updated < cutoff
  }

  function Purge(db: Db, now: Ts, retention: int): Db {
    var cutoff := Clamp(now - retention);
    Db(map i | i in db.rows && !Expired(db.rows[i], cutoff) :: db.rows[i],
       map g | g in db.groups ::
         var k := db.groups[g].canonical;
         if k.Some? && k.value in db.rows && Expired(db.rows[k.value], cutoff)
         then db.groups[g].(canonical := None) else db.groups[g])
  }
}
