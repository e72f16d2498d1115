/**
 * The repository: tables held in fields, one method per operation, each one transaction.
 * What a method does is the function of the same operation in `StoreSpec` and `OpsSpec`.
 */
module Store {
  import opened Wrappers
  import opened Model
  import opened Selection
  import opened StoreSpec
  import opened OpsSpec
  import opened Rules

  /** `n` of one `INSERT ... ON CONFLICT DO NOTHING`. */
  function NewRows(rows: map<RowId, Row>, b: ScanRow): nat {
    if FindByKey(rows, b.seen.key).None? then 1 else 0
  }

  lemma InsertGrows(rows: map<RowId, Row>, b: ScanRow, now: Ts)
    ensures |ScanInsertOne(rows, b, now).Keys| == |rows.Keys| + NewRows(rows, b)
  {
    if FindByKey(rows, b.seen.key).None? {
      assert ScanInsertOne(rows, b, now).Keys == rows.Keys + {NextId(rows.Keys)};
    }
  }

  lemma RequeueMore(rows: map<RowId, Row>, dirs: seq<FileLoc>, d: FileLoc, now: Ts)
    ensures Requeue(Requeue(rows, dirs, now), [d], now) == Requeue(rows, dirs + [d], now)
  {
    forall loc ensures UnderAny(dirs + [d], loc) <==> UnderAny(dirs, loc) || UnderAny([d], loc) {
      if UnderAny([d], loc) { assert d in dirs + [d]; }
      if x :| x in dirs && Under(x, loc) { assert x in dirs + [d]; }
    }
  }

  class Repository {
    var rows: map<RowId, Row>
    var groups: map<GroupId, Group>
    var roots: map<int, RootKind>

    ghost function Tables(): Db
      reads this
    {
      Db(rows, groups)
    }

    constructor (roots: map<int, RootKind>)
      ensures Tables() == Db(map[], map[]) && this.roots == roots
    {
      rows, groups := map[], map[];
      this.roots := roots;
    }

    // -------------------------------------------------------------- queue

    method TakeNext(now: Ts, allowHeavy: bool, maxWait: int) returns (r: Option<RowId>)
      ensures r == NextReady(rows, now, allowHeavy, maxWait)
    {
      r := NextReady(rows, now, allowHeavy, maxWait);
    }

    /** `None` is a refused transaction; otherwise whether the main compare-and-set was taken. */
    method ApplyTransition(t: Transition) returns (won: Option<bool>)
      modifies this`rows, this`groups
      ensures match Apply(old(Tables()), t)
              case Refused => won == None && Tables() == old(Tables())
              case Applied(db, w) => won == Some(w) && Tables() == db
    {
      if t.group.Some? && !GroupOpAllowed(Db(rows, groups), t.main.id, t.group.value) {
        return None;
      }
      if !CasHolds(rows, t.main) {
        return Some(false);
      }
      rows := CasUpdate(rows, t.main, t.now);
      ghost var mid := rows;
      var i := 0;
      while i < |t.others|
        invariant 0 <= i <= |t.others| && rows.Keys == mid.Keys
        invariant groups == old(groups)
        invariant CasAll(rows, t.others[i..], t.now) == CasAll(mid, t.others, t.now)
      {
        assert t.others[i..][1..] == t.others[i + 1..];
        rows := CasUpdate(rows, t.others[i], t.now);
        i := i + 1;
      }
      if t.group.Some? {
        var db := ApplyGroupOp(Db(rows, groups), t.main.id, t.group.value, t.now);
        rows, groups := db.rows, db.groups;
      }
      won := Some(true);
    }

    /** Insert or update by key; a canonical row that leaves its group takes the pointer with it. */
    method UpsertPending(seen: Identity, loc: FileLoc, readyAt: Ts, priority: nat, now: Ts) returns (ok: bool)
      modifies this`rows, this`groups
      ensures ok <==> loc.root in roots
      ensures Tables() == if ok then Upsert(old(Tables()), seen, loc, readyAt, priority, now, roots[loc.root])
                          else old(Tables())
    {
      if loc.root !in roots {
        return false;
      }
      match FindByKey(rows, seen.key) {
      case None =>
        rows := rows[NextId(rows.Keys) := NewRow(seen, loc, Settling, Some(readyAt), priority, now)];
      case Some(i) =>
        var wasGroup := rows[i].group;
        rows := rows[i := Reseen(rows[i], seen, loc, readyAt, priority, now, roots[loc.root])];
        if rows[i].group.None? {
          groups := DropPointer(groups, wasGroup, i);
        }
      }
      ok := true;
    }

    /** One transaction for a batch: how many rows were new, or `None` when a row's root is unknown. */
    method InsertScanned(batch: seq<ScanRow>, now: Ts) returns (n: Option<nat>)
      modifies this`rows
      ensures n.Some? <==> forall j :: 0 <= j < |batch| ==> batch[j].loc.root in roots
      ensures rows == if n.Some? then ScanInsert(old(rows), batch, now) else old(rows)
      ensures n.Some? ==> |rows.Keys| == |old(rows).Keys| + n.value
    {
      var before, count: nat := rows, 0;
      for i := 0 to |batch|
        invariant before == old(rows) && forall j :: 0 <= j < i ==> batch[j].loc.root in roots
        invariant ScanInsert(rows, batch[i..], now) == ScanInsert(old(rows), batch, now)
        invariant |rows.Keys| == |old(rows).Keys| + count
      {
        if batch[i].loc.root !in roots {
          rows := before;
          return None;
        }
        assert batch[i..][0] == batch[i] && batch[i..][1..] == batch[i + 1..];
        InsertGrows(rows, batch[i], now);
        count := count + NewRows(rows, batch[i]);
        rows := ScanInsertOne(rows, batch[i], now);
      }
      assert batch[|batch|..] == [];
      n := Some(count);
    }

    /** Two updates in one transaction: wake rows with a peer, then close those still parked. */
    method ClosePhaseB(root: int, now: Ts)
      modifies this`rows
      ensures rows == ScanPhaseB(old(rows), root, now)
    {
      var woken := map i | i in rows ::
        if Parked(rows[i], root) && HasPeer(rows, i) then rows[i].(readyAt := Some(now), updated := now) else rows[i];
      rows := map i | i in woken ::
        if Parked(woken[i], root) then woken[i].(state := Distinct, updated := now) else woken[i];
    }

    // -------------------------------------------------------------- watcher

    /** Two updates: a live row of another file at the path goes missing, then the row of the key moves. */
    method RenameFile(key: FileKey, loc: FileLoc, now: Ts) returns (ok: bool)
      modifies this`rows
      ensures ok <==> FindByKey(old(rows), key).Some?
      ensures rows == if ok then Rename(old(rows), key, loc, now) else old(rows)
    {
      if FindByKey(rows, key).None? {
        return false;
      }
      var cleared := map i | i in rows ::
        if rows[i].key != key && rows[i].loc == loc && rows[i].Live() then SetMissing(rows[i], now) else rows[i];
      rows := map i | i in cleared ::
        if cleared[i].key == key then cleared[i].(loc := loc, updated := now) else cleared[i];
      ok := true;
    }

    /** `n` is the number of rows that moved. */
    method RenameDir(from: FileLoc, to: FileLoc, now: Ts) returns (n: nat)
      modifies this`rows
      ensures rows == RenamePrefix(old(rows), from, to, now)
      ensures n == 0 <==> forall i :: i in old(rows) ==> !Under(from, old(rows)[i].loc)
    {
      var below := set i | i in rows && Under(from, rows[i].loc);
      n := |below|;
      assert n == 0 <==> below == {};
      assert below == {} <==> forall i :: i in rows ==> !Under(from, rows[i].loc) by {
        if below == {} {
          forall i | i in rows ensures !Under(from, rows[i].loc) { assert i !in below; }
        }
      }
      rows := RenamePrefix(rows, from, to, now);
    }

    method LoseFile(loc: FileLoc, now: Ts)
      modifies this`rows
      ensures rows == MarkMissing(old(rows), loc, now)
    {
      rows := MarkMissing(rows, loc, now);
    }

    method LoseDir(dir: FileLoc, now: Ts) returns (n: nat)
      modifies this`rows
      ensures rows == MarkMissingPrefix(old(rows), dir, now)
      ensures n == |set i | i in old(rows) && Under(dir, old(rows)[i].loc) && old(rows)[i].Live()|
    {
      n := |set i | i in rows && Under(dir, rows[i].loc) && rows[i].Live()|;
      rows := MarkMissingPrefix(rows, dir, now);
    }

    /** The kind of the root that the row of `key` is on. */
    ghost function KindOfRow(key: FileKey): Option<RootKind>
      reads this
    {
      match FindByKey(rows, key)
      case Some(i) => if rows[i].loc.root in roots then Some(roots[rows[i].loc.root]) else None
      case None => None
    }

    /** Refused only for a missing row on a root nobody knows. */
    method RestoreRow(key: FileKey, seen: Identity, now: Ts) returns (ok: bool)
      requires seen.key == key
      modifies this`rows, this`groups
      ensures ok <==> (FindByKey(old(rows), key).Some? && old(rows)[FindByKey(old(rows), key).value].state.Missing?
                       ==> old(KindOfRow(key)).Some?)
      ensures Tables() == if ok && old(KindOfRow(key)).Some?
                          then RestoreOrReset(old(Tables()), key, seen, now, old(KindOfRow(key)).value)
                          else old(Tables())
    {
      ok := true;
      var found := FindByKey(rows, key);
      if found.Some? && rows[found.value].state.Missing? {
        ok := UpsertPending(seen, rows[found.value].loc, now, rows[found.value].priority, now);
      }
    }

    // -------------------------------------------------------------- maintenance

    /** `verified` rows below the allowed directories go back to verification. */
    method RequeueVerified(dirs: seq<FileLoc>, now: Ts)
      modifies this`rows
      ensures rows == Requeue(old(rows), dirs, now)
    {
      assert rows == Requeue(rows, [], now);
      for i := 0 to |dirs|
        invariant rows == Requeue(old(rows), dirs[..i], now)
      {
        RequeueMore(old(rows), dirs[..i], dirs[i], now);
        assert dirs[..i + 1] == dirs[..i] + [dirs[i]];
        rows := Requeue(rows, [dirs[i]], now);
      }
      assert dirs[..|dirs|] == dirs;
    }

    method PurgeGone(now: Ts, retention: int)
      modifies this`rows, this`groups
      ensures Tables() == Purge(old(Tables()), now, retention)
    {
      var db := Purge(Db(rows, groups), now, retention);
      rows, groups := db.rows, db.groups;
    }
  }
}
