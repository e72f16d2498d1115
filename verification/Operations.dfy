/** Every operation that writes the tables, as one step of a transition system. */
module Operations {
  import opened Model
  import opened OpsSpec
  import opened Pipeline

  datatype Op =
    | WorkerRound(ctx: Ctx, env: Env, maxWait: int)
    | UpsertPending(seen: Identity, loc: FileLoc, readyAt: Ts, priority: nat, now: Ts, kind: RootKind)
    | RestoreRow(key: FileKey, seen: Identity, now: Ts, kind: RootKind)
    | SeeFile(key: FileKey, fp: Fingerprint, loc: FileLoc, now: Ts, kind: RootKind)
    | RenameFile(key: FileKey, loc: FileLoc, now: Ts)
    | RenameDir(from: FileLoc, to: FileLoc, now: Ts)
    | LoseFile(loc: FileLoc, now: Ts)
    | LoseDir(loc: FileLoc, now: Ts)
    | InsertBatch(batch: seq<ScanRow>, now: Ts)
    | ClosePhaseB(root: int, now: Ts)
    | FinishPresence(root: int, seenKeys: set<FileKey>, scan: Ts)
    | ExpirePresence(root: int, cutoff: Ts, now: Ts)
    | ParkDomain(domain: nat, err: string, now: Ts)
    | UnparkDomain(domain: nat, now: Ts)
    | RequeueVerified(dirs: seq<FileLoc>, now: Ts)
    | PurgeGone(now: Ts, retention: int)

  function Perform(db: Db, op: Op): Db {
    match op
    case WorkerRound(c, e, maxWait) =>
      (match Round(c, e, db, maxWait) case Worked(db') => db' case _ => db)
    case UpsertPending(seen, loc, readyAt, priority, now, kind) => Upsert(db, seen, loc, readyAt, priority, now, kind)
    case RestoreRow(key, seen, now, kind) => RestoreOrReset(db, key, seen, now, kind)
    case SeeFile(key, fp, loc, now, kind) => PresenceSeen(db, key, fp, loc, now, kind)
    case RenameFile(key, loc, now) => db.(rows := Rename(db.rows, key, loc, now))
    case RenameDir(from, to, now) => db.(rows := RenamePrefix(db.rows, from, to, now))
    case LoseFile(loc, now) => db.(rows := MarkMissing(db.rows, loc, now))
    case LoseDir(loc, now) => db.(rows := MarkMissingPrefix(db.rows, loc, now))
    case InsertBatch(batch, now) => db.(rows := ScanInsert(db.rows, batch, now))
    case ClosePhaseB(root, now) => db.(rows := ScanPhaseB(db.rows, root, now))
    case FinishPresence(root, seenKeys, scan) => db.(rows := PresenceFinish(db.rows, root, seenKeys, scan))
    case ExpirePresence(root, cutoff, now) => db.(rows := PresenceExpire(db.rows, root, cutoff, now))
    case ParkDomain(domain, err, now) => db.(rows := Park(db.rows, domain, err, now))
    case UnparkDomain(domain, now) => db.(rows := Unpark(db.rows, domain, now))
    case RequeueVerified(dirs, now) => db.(rows := Requeue(db.rows, dirs, now))
    case PurgeGone(now, retention) => Purge(db, now, retention)
  }

  function Run(db: Db, ops: seq<Op>): Db
    decreases |ops|
  {
    if ops == [] then db else Run(Perform(db, ops[0]), ops[1..])
  }
}
