/** The event handler as it runs on the repository; `Handler` says what each event does to the tables. */
module EventHandler {
  import opened Wrappers
  import opened Model
  import opened StoreSpec
  import opened OpsSpec
  import opened Handler
  import opened Store

  class Watcher {
    const repo: Repository

    constructor (repo: Repository)
      ensures this.repo == repo
    {
      this.repo := repo;
    }

    method WriteSeen(sc: Scene, loc: FileLoc, id: Identity) returns (r: FollowUps)
      requires repo.roots == sc.kinds
      modifies repo`rows, repo`groups
      ensures (repo.Tables(), r) == UpsertAt(sc, old(repo.Tables()), loc, id)
    {
      var ok := repo.UpsertPending(id, loc, SettledAt(sc), PRIORITY_EVENT, sc.now);
      r := if ok then Ok([]) else Err(NoSuchRoot);
    }

    method MakeWay(sc: Scene, loc: FileLoc, id: Identity)
      modifies repo`rows
      ensures repo.Tables() == ClearPath(sc, old(repo.Tables()), loc, id)
    {
      var found := FindByPath(repo.rows, loc);
      if found.None? || repo.rows[found.value].key == id.key {
        return;
      }
      if FindByKey(repo.rows, id.key).Some? {
        var ok := repo.RenameFile(id.key, loc, sc.now);
      } else {
        repo.LoseFile(loc, sc.now);
      }
    }

    method SeeFile(sc: Scene, loc: FileLoc, id: Identity) returns (r: FollowUps)
      requires repo.roots == sc.kinds
      modifies repo`rows, repo`groups
      ensures (repo.Tables(), r) == UpsertSeen(sc, old(repo.Tables()), loc, id)
    {
      if sc.rejects(loc, id.size) {
        return Ok([]);
      }
      if !sc.hasRoom(id.uid) {
        return Ok([Rescan(BackPressure)]);
      }
      MakeWay(sc, loc, id);
      r := WriteSeen(sc, loc, id);
    }

    method Arrive(sc: Scene, ev: Event, loc: FileLoc) returns (r: FollowUps)
      requires repo.roots == sc.kinds
      modifies repo`rows, repo`groups
      ensures (repo.Tables(), r) == AddOrMoveIn(sc, old(repo.Tables()), ev, loc)
    {
      var rejected := if ev.MovedIn? then sc.excludedDir(loc.rel) else sc.rejectsName(loc.rel);
      if rejected {
        return Ok([]);
      }
      match Look(sc, loc)
      case IsFile(id) => r := SeeFile(sc, loc, id);
      case NotFile => r := if ev.MovedIn? then WalkIfWatched(sc, loc) else Ok([]);
      case AskAgain => r := TryLater(sc, ev);
      case _ => r := Ok([]);
    }

    method Written(sc: Scene, loc: FileLoc) returns (r: FollowUps)
      requires repo.roots == sc.kinds
      modifies repo`rows, repo`groups
      ensures (repo.Tables(), r) == PushReady(sc, old(repo.Tables()), loc)
    {
      match Look(sc, loc)
      case IsFile(id) =>
        var found := FindByKey(repo.rows, id.key);
        if found.None? || !repo.rows[found.value].state.Settling? || repo.rows[found.value].loc != loc {
          return Ok([]);
        }
        r := WriteSeen(sc, loc, id);
      case AskAgain => r := TryLater(sc, Modified(loc));
      case _ => r := Ok([]);
    }

    /** The point first, then the range below it. */
    method LoseAll(sc: Scene, loc: FileLoc) returns (r: FollowUps)
      modifies repo`rows
      ensures (repo.Tables(), r) == MarkGone(sc, old(repo.Tables()), loc)
    {
      repo.LoseFile(loc, sc.now);
      var n := repo.LoseDir(loc, sc.now);
      r := ReportMissing(loc, n);
    }

    method Leave(sc: Scene, loc: FileLoc, ev: Event) returns (r: FollowUps)
      requires repo.roots == sc.kinds
      modifies repo`rows, repo`groups
      ensures (repo.Tables(), r) == Vanished(sc, old(repo.Tables()), loc, ev)
    {
      if loc.rel == "" {
        return Err(EmptyPath);
      }
      match Look(sc, loc)
      case Absent => r := LoseAll(sc, loc);
      case IsFile(id) => r := SeeFile(sc, loc, id);
      case NotFile => r := WalkIfWatched(sc, loc);
      case AskAgain => r := TryLater(sc, ev);
      case NoAnswer => r := Ok([]);
    }

    method LeaveSource(sc: Scene, from: FileLoc) returns (r: FollowUps)
      modifies repo`rows
      ensures (repo.Tables(), r) == ClearSource(sc, old(repo.Tables()), from)
    {
      if from.rel == "" {
        return Err(EmptyPath);
      }
      if Look(sc, from).Absent? {
        r := LoseAll(sc, from);
      } else {
        r := Ok([]);
      }
    }

    method RenameDir(sc: Scene, from: FileLoc, to: FileLoc) returns (r: FollowUps)
      requires repo.roots == sc.kinds
      modifies repo`rows, repo`groups
      ensures (repo.Tables(), r) == MoveDir(sc, old(repo.Tables()), from, to)
    {
      if from.rel == "" {
        return Err(EmptyPath);
      }
      if sc.excludedDir(to.rel) {
        r := Leave(sc, from, RenamedDir(from, to));
        return;
      }
      ghost var moved := set i | i in repo.rows && Under(from, repo.rows[i].loc);
      var n := repo.RenameDir(from, to, sc.now);
      assert n == 0 <==> moved == {} by {
        if moved == {} {
          forall i | i in old(repo.rows) ensures !Under(from, old(repo.rows)[i].loc) { assert i !in moved; }
        }
      }
      r := if n == 0 then Ok([WalkDir(to)]) else Ok([]);
    }

    method RenameKnown(sc: Scene, i: RowId, to: FileLoc, id: Identity) returns (r: FollowUps)
      requires repo.roots == sc.kinds && FindByKey(repo.rows, id.key) == Some(i) && UniqueKeys(repo.rows)
      modifies repo`rows, repo`groups
      ensures (repo.Tables(), r) == MoveKnown(sc, old(repo.Tables()), i, to, id)
    {
      var wasMissing := repo.rows[i].state.Missing?;
      var ok := repo.RenameFile(id.key, to, sc.now);
      assert FindByKey(repo.rows, id.key) == Some(i);
      r := Ok([]);
      if wasMissing {
        ok := repo.RestoreRow(id.key, id, sc.now);
        r := if ok then Ok([]) else Err(NoSuchRoot);
      }
    }

    /** A rename to a file: the target first, then what is left at the source. */
    method RenameFile(sc: Scene, from: FileLoc, to: FileLoc, id: Identity) returns (r: FollowUps)
      requires repo.roots == sc.kinds && UniqueKeys(repo.rows)
      modifies repo`rows, repo`groups
      ensures (repo.Tables(), r) == MoveFile(sc, old(repo.Tables()), from, to, id)
    {
      var found := FindByKey(repo.rows, id.key);
      if found.Some? {
        r := RenameKnown(sc, found.value, to, id);
        if r.Ok? {
          r := LeaveSource(sc, from);
        }
        return;
      }
      r := LeaveSource(sc, from);
      if r.Ok? {
        var more := SeeFile(sc, to, id);
        r := if more.Ok? then Ok(r.value + more.value) else more;
      }
    }

    method Rename(sc: Scene, from: FileLoc, to: FileLoc) returns (r: FollowUps)
      requires repo.roots == sc.kinds && UniqueKeys(repo.rows)
      modifies repo`rows, repo`groups
      ensures (repo.Tables(), r) == MoveAny(sc, old(repo.Tables()), from, to)
    {
      var ev := Renamed(from, to);
      if sc.excludedDir(to.rel) {
        r := Leave(sc, from, ev);
        return;
      }
      match Look(sc, to)
      case Absent => r := Leave(sc, from, ev);
      case NoAnswer => r := Ok([]);
      case AskAgain => r := TryLater(sc, ev);
      case NotFile => r := RenameDir(sc, from, to);
      case IsFile(id) =>
        if sc.rejects(to, id.size) {
          r := Leave(sc, from, ev);
        } else {
          r := RenameFile(sc, from, to, id);
        }
    }

    method Dispatch(sc: Scene, ev: Event) returns (r: FollowUps)
      requires repo.roots == sc.kinds && UniqueKeys(repo.rows)
      modifies repo`rows, repo`groups
      ensures (repo.Tables(), r) == Handle(sc, old(repo.Tables()), ev)
    {
      match ev
      case Closed(loc) => r := Arrive(sc, ev, loc);
      case MovedIn(loc) => r := Arrive(sc, ev, loc);
      case Modified(loc) => r := Written(sc, loc);
      case Renamed(from, to) => r := Rename(sc, from, to);
      case RenamedDir(from, to) => r := RenameDir(sc, from, to);
      case RemovedUnknown(loc) => r := Leave(sc, loc, ev);
      case Removed(loc) =>
        repo.LoseFile(loc, sc.now);
        r := Ok([]);
      case RemovedDir(loc) =>
        var n := repo.LoseDir(loc, sc.now);
        r := ReportMissing(loc, n);
      case CreatedDir(loc) => r := WalkIfWatched(sc, loc);
      case NeedsRescan(reason) => r := Ok([Rescan(reason)]);
    }
  }
}
