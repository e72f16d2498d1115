/** What one event of the watcher does to the tables, and what it asks the walk to do. */
module Handler {
  import opened Wrappers
  import opened Model
  import opened StoreSpec
  import opened OpsSpec

  // ---------------------------------------------------------------- events and answers

  datatype Reason = QueueOverflow | WatchLimit | BackPressure

  datatype Event =
    | Closed(loc: FileLoc)
    | Modified(loc: FileLoc)
    | Renamed(from: FileLoc, to: FileLoc)
    | MovedIn(loc: FileLoc)
    | Removed(loc: FileLoc)
    | RemovedUnknown(loc: FileLoc)
    | RemovedDir(loc: FileLoc)
    | RenamedDir(from: FileLoc, to: FileLoc)
    | CreatedDir(loc: FileLoc)
    | NeedsRescan(reason: Reason)

  datatype FollowUp =
    | WalkDir(dir: FileLoc)
    | Rescan(reason: Reason)
    | Retry(event: Event, notBefore: Ts)
    | MarkedMissing(loc: FileLoc, rows: nat)

  datatype HandlerError = EmptyPath | NoSuchRoot

  type FollowUps = Result<seq<FollowUp>, HandlerError>

  datatype StatError = NotFound | NotRegular | UnknownRoot | Unsupported | ReadOnlyRoot | Io(errno: int)

  /** The file system and the settings while one event is handled. */
  datatype Scene = Scene(
    statx: FileLoc -> Result<Identity, StatError>,
    excludedDir: string -> bool, rejectsName: string -> bool, rejects: (FileLoc, nat) -> bool,
    hasRoom: nat -> bool, kinds: map<int, RootKind>, now: Ts, settleDelay: int)

  const ENOENT := 2
  const RETRY_DELAY_MS := 1_000
  const PRIORITY_EVENT := 0

  /** EPERM, ENXIO, EACCES, ENODEV, ENAMETOOLONG, ELOOP, EOVERFLOW. */
  const LASTING_ERRNOS: set<int> := {1, 6, 13, 19, 36, 40, 75}

  predicate IsDirMode(mode: nat) { (mode / 0x1000) % 16 == 4 }

  /** The five ways the handler reads a `statx`: only `Absent` says that nothing is there. */
  datatype Looked = IsFile(identity: Identity) | NotFile | Absent | NoAnswer | AskAgain

  function Look(sc: Scene, loc: FileLoc): Looked {
    match sc.statx(loc)
    case Ok(id) => if IsDirMode(id.mode) then NotFile else IsFile(id)
    case Err(NotFound) => Absent
    case Err(NotRegular) => NotFile
    case Err(Io(n)) => if n == ENOENT then Absent else if n in LASTING_ERRNOS then NoAnswer else AskAgain
    case Err(_) => NoAnswer
  }

  function SettledAt(sc: Scene): Ts { Clamp(sc.now + sc.settleDelay) }

  function TryLater(sc: Scene, ev: Event): FollowUps { Ok([Retry(ev, Clamp(sc.now + RETRY_DELAY_MS))]) }

  function WalkIfWatched(sc: Scene, loc: FileLoc): FollowUps {
    if sc.excludedDir(loc.rel) then Ok([]) else Ok([WalkDir(loc)])
  }

  function LiveUnder(rows: map<RowId, Row>, dir: FileLoc): set<RowId> {
    set i | i in rows && Under(dir, rows[i].loc) && rows[i].Live()
  }

  function ReportMissing(loc: FileLoc, n: nat): FollowUps {
    if n == 0 then Ok([]) else Ok([MarkedMissing(loc, n)])
  }

  // ---------------------------------------------------------------- what each branch does

  function UpsertAt(sc: Scene, db: Db, loc: FileLoc, id: Identity): (Db, FollowUps) {
    if loc.root !in sc.kinds then (db, Err(NoSuchRoot))
    else (Upsert(db, id, loc, SettledAt(sc), PRIORITY_EVENT, sc.now, sc.kinds[loc.root]), Ok([]))
  }

  /** Makes way at `loc` for the row of `id`: another file's row there is not alive any more. */
  function ClearPath(sc: Scene, db: Db, loc: FileLoc, id: Identity): Db {
    match FindByPath(db.rows, loc)
    case None => db
    case Some(i) =>
      if db.rows[i].key == id.key then db
      else if FindByKey(db.rows, id.key).Some? then db.(rows := Rename(db.rows, id.key, loc, sc.now))
      else db.(rows := MarkMissing(db.rows, loc, sc.now))
  }

  /** A file seen through an event: filtered, held back when the queue is full, else upserted. */
  function UpsertSeen(sc: Scene, db: Db, loc: FileLoc, id: Identity): (Db, FollowUps) {
    if sc.rejects(loc, id.size) then (db, Ok([]))
    else if !sc.hasRoom(id.uid) then (db, Ok([Rescan(BackPressure)]))
    else UpsertAt(sc, ClearPath(sc, db, loc, id), loc, id)
  }

  function AddOrMoveIn(sc: Scene, db: Db, ev: Event, loc: FileLoc): (Db, FollowUps) {
    if (if ev.MovedIn? then sc.excludedDir(loc.rel) else sc.rejectsName(loc.rel)) then (db, Ok([]))
    else
      match Look(sc, loc)
      case IsFile(id) => UpsertSeen(sc, db, loc, id)
      case NotFile => (db, if ev.MovedIn? then WalkIfWatched(sc, loc) else Ok([]))
      case AskAgain => (db, TryLater(sc, ev))
      case _ => (db, Ok([]))
  }

  /** A write pushes the date of a settling row at its own path, nothing else. */
  function PushReady(sc: Scene, db: Db, loc: FileLoc): (Db, FollowUps) {
    match Look(sc, loc)
    case IsFile(id) =>
      (match FindByKey(db.rows, id.key)
       case None => (db, Ok([]))
       case Some(i) =>
         if !db.rows[i].state.Settling? || db.rows[i].loc != loc then (db, Ok([]))
         else UpsertAt(sc, db, loc, id))
    case AskAgain => (db, TryLater(sc, Modified(loc)))
    case _ => (db, Ok([]))
  }

  /** Only after `ENOENT`: the row at the path and every row below it. */
  function MarkGone(sc: Scene, db: Db, loc: FileLoc): (Db, FollowUps) {
    var rows := MarkMissing(db.rows, loc, sc.now);
    (db.(rows := MarkMissingPrefix(rows, loc, sc.now)), ReportMissing(loc, |LiveUnder(rows, loc)|))
  }

  /** Something left `loc`, nobody knows what: ask before marking. */
  function Vanished(sc: Scene, db: Db, loc: FileLoc, ev: Event): (Db, FollowUps) {
    if loc.rel == "" then (db, Err(EmptyPath))
    else
      match Look(sc, loc)
      case Absent => MarkGone(sc, db, loc)
      case IsFile(id) => UpsertSeen(sc, db, loc, id)
      case NotFile => (db, WalkIfWatched(sc, loc))
      case AskAgain => (db, TryLater(sc, ev))
      case NoAnswer => (db, Ok([]))
  }

  /** The source of a rename whose target is done: only `ENOENT` lets it write. */
  function ClearSource(sc: Scene, db: Db, from: FileLoc): (Db, FollowUps) {
    if from.rel == "" then (db, Err(EmptyPath))
    else if Look(sc, from).Absent? then MarkGone(sc, db, from)
    else (db, Ok([]))
  }

  function MoveDir(sc: Scene, db: Db, from: FileLoc, to: FileLoc): (Db, FollowUps) {
    if from.rel == "" then (db, Err(EmptyPath))
    else if sc.excludedDir(to.rel) then Vanished(sc, db, from, RenamedDir(from, to))
    else
      var moved := set i | i in db.rows && Under(from, db.rows[i].loc);
      (db.(rows := RenamePrefix(db.rows, from, to, sc.now)), if moved == {} then Ok([WalkDir(to)]) else Ok([]))
  }

  /** The row of a known file moves; if it was missing it is restored at its new path. */
  function MoveKnown(sc: Scene, db: Db, i: RowId, to: FileLoc, id: Identity): (Db, FollowUps)
    requires i in db.rows
  {
    var moved := db.(rows := Rename(db.rows, id.key, to, sc.now));
    if !db.rows[i].state.Missing? then (moved, Ok([]))
    else if to.root !in sc.kinds then (moved, Err(NoSuchRoot))
    else (RestoreOrReset(moved, id.key, id, sc.now, sc.kinds[to.root]), Ok([]))
  }

  function AndThen(a: (Db, FollowUps), b: (Db, FollowUps)): (Db, FollowUps) {
    if a.1.Err? then a else if b.1.Err? then b else (b.0, Ok(a.1.value + b.1.value))
  }

  function MoveFile(sc: Scene, db: Db, from: FileLoc, to: FileLoc, id: Identity): (Db, FollowUps) {
    match FindByKey(db.rows, id.key)
    case Some(i) =>
      var moved := MoveKnown(sc, db, i, to, id);
      if moved.1.Err? then moved else ClearSource(sc, moved.0, from)
    case None =>
      var cleared := ClearSource(sc, db, from);
      if cleared.1.Err? then cleared else AndThen(cleared, UpsertSeen(sc, cleared.0, to, id))
  }

  function MoveAny(sc: Scene, db: Db, from: FileLoc, to: FileLoc): (Db, FollowUps) {
    var ev := Renamed(from, to);
    if sc.excludedDir(to.rel) then Vanished(sc, db, from, ev)
    else
      match Look(sc, to)
      case Absent => Vanished(sc, db, from, ev)
      case NoAnswer => (db, Ok([]))
      case AskAgain => (db, TryLater(sc, ev))
      case NotFile => MoveDir(sc, db, from, to)
      case IsFile(id) =>
        if sc.rejects(to, id.size) then Vanished(sc, db, from, ev) else MoveFile(sc, db, from, to, id)
  }

  function Handle(sc: Scene, db: Db, ev: Event): (Db, FollowUps) {
    match ev
    case Closed(loc) => AddOrMoveIn(sc, db, ev, loc)
    case MovedIn(loc) => AddOrMoveIn(sc, db, ev, loc)
    case Modified(loc) => PushReady(sc, db, loc)
    case Renamed(from, to) => MoveAny(sc, db, from, to)
    case RenamedDir(from, to) => MoveDir(sc, db, from, to)
    case RemovedUnknown(loc) => Vanished(sc, db, loc, ev)
    case Removed(loc) => (db.(rows := MarkMissing(db.rows, loc, sc.now)), Ok([]))
    case RemovedDir(loc) =>
      (db.(rows := MarkMissingPrefix(db.rows, loc, sc.now)), ReportMissing(loc, |LiveUnder(db.rows, loc)|))
    case CreatedDir(loc) => (db, WalkIfWatched(sc, loc))
    case NeedsRescan(reason) => (db, Ok([Rescan(reason)]))
  }

  function HandleAll(scenes: nat -> Scene, db: Db, evs: seq<Event>, n: nat): Db
    decreases |evs|
  {
    if evs == [] then db else HandleAll(scenes, Handle(scenes(n), db, evs[0]).0, evs[1..], n + 1)
  }
}
