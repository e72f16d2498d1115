/**
 * What holds in every reachable state of the tables: pointers and references are
 * sound, rows that rely on a group have one, and a row with the undo mark stays out of
 * groups and of the states beyond `settling`. So a worker round is never refused.
 */
module Reachable {
  import opened Wrappers
  import opened Model
  import opened Selection
  import opened StoreSpec
  import opened OpsSpec
  import opened Rules
  import opened Pipeline
  import opened Operations
  import opened Grouping
  import opened Sound
  import opened Canonical

  /** States that a row the user took out may be in; for a missing row, the state it would return to. */
  predicate OutState(r: Row) {
    var s := if r.state.Missing? then RestoreTarget(r.prev) else r.state;
    s.Settling? || s.Skipped? || s.Failed? || s.Gone?
  }

  /** A row with the undo mark is in no group and in no state that leads to one without settling first. */
  ghost predicate UndoneOut(r: Row) {
    r.skipReason == Some(UserUndo) ==> r.group.None? && OutState(r)
  }

  ghost predicate UndoOk(db: Db) {
    forall i :: i in db.rows ==> UndoneOut(db.rows[i])
  }

  /** What the drain needs of the tables. */
  ghost predicate TablesOk(db: Db) {
    PointersOk(db) && HashedOk(db)
  }

  ghost predicate WellFormed(db: Db) {
    TablesOk(db) && UndoOk(db)
  }

  /** The scans insert rows that are sized or still settling. */
  ghost predicate OpOk(op: Op) {
    op.InsertBatch? ==> forall j :: 0 <= j < |op.batch| ==> op.batch[j].state.Sized? || op.batch[j].state.Settling?
  }

  // ---------------------------------------------------------------- rounds

  lemma RowAfterSound(db: Db, t: Transition, i: RowId)
    requires TablesOk(db) && IsSound(db, t) && i in db.rows
    ensures i in RowsAfter(db, t)
    ensures var r := RowsAfter(db, t)[i];
      NeedsGroup(r) ==>
        || Grouped(db, r)
        || (t.group.Some? && t.group.value.Create? && r.sparse == Some(t.group.value.hash)
            && var m := PatchRow(db.rows[t.main.id], t.main, t.now); r.domain == m.domain && r.size == m.size)
  {
    RowAfterIs(db, t, i);
    if i != t.main.id && RowsAfter(db, t)[i] != db.rows[i] {
      var j :| 0 <= j < |t.others| && t.others[j].id == i
               && RowsAfter(db, t)[i] == PatchRow(db.rows[i], t.others[j], t.now);
      assert CasOk(db, t, t.others[j]);
    }
  }

  lemma GroupOpGroups(db: Db, row: RowId, op: GroupOp, now: Ts)
    requires GroupOpAllowed(db, row, op)
    ensures GroupsGrow(db, ApplyGroupOp(db, row, op, now))
  {
  }

  lemma CreatedKey(db: Db, row: RowId, op: GroupOp, now: Ts)
    requires GroupOpAllowed(db, row, op) && op.Create?
    ensures GroupsByKey(ApplyGroupOp(db, row, op, now), db.rows[row].domain, db.rows[row].size, op.hash) != {}
  {
    var gid := NextId(db.groups.Keys);
    assert gid in GroupsByKey(ApplyGroupOp(db, row, op, now), db.rows[row].domain, db.rows[row].size, op.hash);
  }

  lemma ApplyTablesOk(db: Db, t: Transition)
    requires TablesOk(db) && IsSound(db, t)
    ensures var a := Apply(db, t); a.Applied? ==> TablesOk(a.db)
  {
    SoundKept(db, t);
    RowsAfterFacts(db, t);
    var a := Apply(db, t);
    if a.Applied? {
      var mid := db.(rows := RowsAfter(db, t));
      if t.group.Some? {
        GroupOpGroups(mid, t.main.id, t.group.value, t.now);
        if t.group.value.Create? { CreatedKey(mid, t.main.id, t.group.value, t.now); }
      }
      CasAllMiss(CasUpdate(db.rows, t.main, t.now), t.others, t.now, t.main.id);
      forall i | i in a.db.rows && NeedsGroup(a.db.rows[i]) ensures Grouped(a.db, a.db.rows[i]) {
        if t.group.Some? { GroupOpRow(mid, t.main.id, t.group.value, t.now, i); }
        RowAfterSound(db, t, i);
        if Grouped(db, mid.rows[i]) { GroupedStays(db, a.db, mid.rows[i]); }
      }
    }
  }

  /** Of the rows a round takes along, none carries the undo mark: they are out of the role, or in it and in a group. */
  lemma OtherNotUndone(db: Db, t: Transition, j: nat)
    requires WellFormed(db) && IsSound(db, t) && j < |t.others|
    ensures db.rows[t.others[j].id].skipReason != Some(UserUndo)
  {
    var r := db.rows[t.others[j].id];
    assert UndoneOut(r);
    if t.group.Some? && t.group.value.SetCanonical? { assert PointerOk(db, t.group.value.group); }
  }

  /** A transition that acts alone, as all those of settling rows do, keeps an undone row out. */
  ghost predicate ActsOut(db: Db, t: Transition)
    requires t.main.id in db.rows
  {
    t.group.None? && t.others == [] && UndoneOut(PatchRow(db.rows[t.main.id], t.main, t.now))
  }

  /** A row that carries no undo mark gets none. */
  lemma UnmarkedStays(db: Db, t: Transition, r: Row, cas: Cas)
    requires CasHolds(db.rows, cas) && CasHolds(db.rows, t.main) && CasOk(db, t, cas) && r.skipReason != Some(UserUndo)
    ensures PatchRow(r, cas, t.now).skipReason != Some(UserUndo)
  {
  }

  lemma RowAfterOut(db: Db, t: Transition, i: RowId)
    requires WellFormed(db) && IsSound(db, t) && i in db.rows
    requires t.main.from.Settling? ==> ActsOut(db, t)
    ensures i in RowsAfter(db, t) && UndoneOut(RowsAfter(db, t)[i])
    ensures t.group.Some? && Mentions(t, i) ==> RowsAfter(db, t)[i].skipReason != Some(UserUndo)
  {
    assert UndoneOut(db.rows[i]);
    if i == t.main.id {
      CasAllMiss(CasUpdate(db.rows, t.main, t.now), t.others, t.now, i);
      if !t.main.from.Settling? { UnmarkedStays(db, t, db.rows[i], t.main); }
    } else if Mentions(t, i) {
      var j :| 0 <= j < |t.others| && t.others[j].id == i;
      CasAllHit(CasUpdate(db.rows, t.main, t.now), t.others, t.now, j);
      OtherNotUndone(db, t, j);
      UnmarkedStays(db, t, db.rows[i], t.others[j]);
    } else {
      CasAllMiss(CasUpdate(db.rows, t.main, t.now), t.others, t.now, i);
    }
  }

  lemma ApplyUndoOk(db: Db, t: Transition)
    requires WellFormed(db) && IsSound(db, t)
    requires t.main.from.Settling? ==> ActsOut(db, t)
    ensures var a := Apply(db, t); a.Applied? ==> UndoOk(a.db)
  {
    var a := Apply(db, t);
    if a.Applied? {
      var mid := db.(rows := RowsAfter(db, t));
      RowsAfterFacts(db, t);
      forall i | i in a.db.rows ensures UndoneOut(a.db.rows[i]) {
        if t.group.Some? { GroupOpRow(mid, t.main.id, t.group.value, t.now, i); }
        RowAfterOut(db, t, i);
      }
    }
  }

  /** A settling row's patch that keeps an undone row out, or takes the mark off. */
  ghost predicate SettlingPatch(to: State, p: Patch) {
    && p.group.Keep? && p.skipReason != Put(Some(UserUndo))
    && (|| to.Settling? || to.Skipped? || to.Failed? || p.skipReason == Put(None)
        || (to.Missing? && p.prev == Put(Some(Settling))))
  }

  lemma SettlingShape(c: Ctx, e: Env, id: RowId, r: Row)
    requires r.state.Settling?
    ensures var t := Decide(c, id, r, SettleStep(c, e, id, r));
      && t.group.None? && t.others == [] && t.main.id == id && t.main.from == Settling
      && SettlingPatch(t.main.to, t.main.patch)
  {
  }

  lemma SettlingPatchOut(r: Row, cas: Cas, now: Ts)
    requires UndoneOut(r) && SettlingPatch(cas.to, cas.patch)
    ensures UndoneOut(PatchRow(r, cas, now))
  {
  }

  lemma SettlingActsOut(c: Ctx, e: Env, db: Db, id: RowId)
    requires id in db.rows && db.rows[id].state.Settling? && UndoneOut(db.rows[id])
    ensures ActsOut(db, Decide(c, id, db.rows[id], SettleStep(c, e, id, db.rows[id])))
  {
    var t := Decide(c, id, db.rows[id], SettleStep(c, e, id, db.rows[id]));
    SettlingShape(c, e, id, db.rows[id]);
    SettlingPatchOut(db.rows[id], t.main, t.now);
  }

  lemma SoundAllowed(db: Db, t: Transition)
    requires PointersOk(db) && IsSound(db, t)
    ensures t.group.Some? ==> GroupOpAllowed(db, t.main.id, t.group.value)
  {
    assert RefOk(db.groups, db.rows[t.main.id]);
  }

  /** Nothing a round decides is refused, and what it leaves is sound. */
  lemma RoundTablesOk(c: Ctx, e: Env, db: Db, maxWait: int)
    requires TablesOk(db)
    ensures var r := Round(c, e, db, maxWait); !r.RepoRefused? && (r.Worked? ==> TablesOk(r.db))
  {
    match NextReady(db.rows, c.now, c.allowHeavy, maxWait)
    case None =>
    case Some(id) =>
      StepSound(c, e, db, id);
      var t := Decide(c, id, db.rows[id], Step(c, e, db, id));
      SoundAllowed(db, t);
      ApplyTablesOk(db, t);
  }

  lemma RoundWellFormed(c: Ctx, e: Env, db: Db, maxWait: int)
    requires WellFormed(db)
    ensures var r := Round(c, e, db, maxWait); !r.RepoRefused? && (r.Worked? ==> WellFormed(r.db))
  {
    match NextReady(db.rows, c.now, c.allowHeavy, maxWait)
    case None =>
    case Some(id) =>
      RoundTablesOk(c, e, db, maxWait);
      StepSound(c, e, db, id);
      assert UndoneOut(db.rows[id]);
      if db.rows[id].state.Settling? { SettlingActsOut(c, e, db, id); }
      var t := Decide(c, id, db.rows[id], Step(c, e, db, id));
      ApplyUndoOk(db, t);
  }

  // ---------------------------------------------------------------- the other operations

  /** A row changed in place that does not start to rely on a group, and stays out if it was undone. */
  ghost predicate NeedKept(r: Row, r': Row) {
    && (UndoneOut(r) ==> UndoneOut(r'))
    && (NeedsGroup(r') ==> NeedsGroup(r) && r'.sparse == r.sparse && r'.domain == r.domain && r'.size == r.size)
  }

  lemma RowsKeptHashed(db: Db, db': Db)
    requires HashedOk(db) && UndoOk(db) && GroupsGrow(db, db')
    requires forall i :: i in db'.rows ==>
      if i in db.rows then NeedKept(db.rows[i], db'.rows[i]) else !NeedsGroup(db'.rows[i]) && UndoneOut(db'.rows[i])
    ensures HashedOk(db') && UndoOk(db')
  {
    forall i | i in db'.rows && NeedsGroup(db'.rows[i]) ensures Grouped(db', db'.rows[i]) {
      GroupedStays(db, db', db'.rows[i]);
    }
    forall i | i in db'.rows ensures UndoneOut(db'.rows[i]) {
      assert i in db.rows ==> UndoneOut(db.rows[i]);
    }
  }

  lemma LostNeedKept(r: Row, now: Ts)
    requires r.Live()
    ensures NeedKept(r, SetMissing(r, now))
  {
  }

  lemma ReseenNeedKept(r: Row, seen: Identity, loc: FileLoc, readyAt: Ts, priority: nat, now: Ts, kind: RootKind)
    requires UndoneOut(r)
    ensures NeedKept(r, Reseen(r, seen, loc, readyAt, priority, now, kind))
  {
  }

  lemma UpsertHashed(db: Db, seen: Identity, loc: FileLoc, readyAt: Ts, priority: nat, now: Ts, kind: RootKind)
    requires HashedOk(db) && UndoOk(db)
    ensures var db' := Upsert(db, seen, loc, readyAt, priority, now, kind); HashedOk(db') && UndoOk(db')
  {
    var i := FindByKey(db.rows, seen.key);
    if i.Some? { ReseenNeedKept(db.rows[i.value], seen, loc, readyAt, priority, now, kind); }
    RowsKeptHashed(db, Upsert(db, seen, loc, readyAt, priority, now, kind));
  }

  lemma {:induction false} ScanInsertHashed(db: Db, batch: seq<ScanRow>, now: Ts)
    requires HashedOk(db) && UndoOk(db)
    requires forall j :: 0 <= j < |batch| ==> batch[j].state.Sized? || batch[j].state.Settling?
    ensures var db' := db.(rows := ScanInsert(db.rows, batch, now)); HashedOk(db') && UndoOk(db')
    decreases |batch|
  {
    if batch != [] {
      var next := db.(rows := ScanInsertOne(db.rows, batch[0], now));
      RowsKeptHashed(db, next);
      ScanInsertHashed(next, batch[1..], now);
    }
  }

  lemma OperationWellFormed(db: Db, op: Op)
    requires WellFormed(db) && OpOk(op)
    ensures WellFormed(Perform(db, op))
  {
    OperationKept(db, op);
    match op
    case WorkerRound(c, e, maxWait) => RoundWellFormed(c, e, db, maxWait);
    case UpsertPending(seen, loc, readyAt, priority, now, kind) =>
      UpsertHashed(db, seen, loc, readyAt, priority, now, kind);
    case RestoreRow(key, seen, now, kind) =>
      match FindByKey(db.rows, key) {
        case None =>
        case Some(i) => UpsertHashed(db, seen, db.rows[i].loc, now, db.rows[i].priority, now, kind);
      }
    case SeeFile(key, fp, loc, now, kind) =>
      match FindByKey(db.rows, key) {
        case None =>
        case Some(i) =>
          var r := db.rows[i];
          var seen := Identity(key, r.domain, fp.size, fp.mtime, fp.ctime, r.nlink, r.uid, r.mode);
          UpsertHashed(db, seen, loc, now, r.priority, now, kind);
      }
    case InsertBatch(batch, now) => ScanInsertHashed(db, batch, now);
    case PurgeGone(now, retention) => PurgeHashed(db, now, retention);
    case _ =>
      if QueueOp(op) { QueueOpHashed(db, op); }
      else if op.LoseFile? || op.LoseDir? || op.FinishPresence? { LoseOpHashed(db, op); }
      else { MoveOpHashed(db, op); }
  }

  lemma PurgeHashed(db: Db, now: Ts, retention: int)
    requires HashedOk(db) && UndoOk(db)
    ensures HashedOk(Purge(db, now, retention)) && UndoOk(Purge(db, now, retention))
  {
    RowsKeptHashed(db, Purge(db, now, retention));
  }

  lemma MoveOpHashed(db: Db, op: Op)
    requires HashedOk(db) && UndoOk(db) && (op.RenameFile? || op.RenameDir? || op.ExpirePresence?)
    ensures HashedOk(Perform(db, op)) && UndoOk(Perform(db, op))
  {
    forall i | i in db.rows ensures NeedKept(db.rows[i], Perform(db, op).rows[i]) {
      if db.rows[i].Live() { LostNeedKept(db.rows[i], op.now); }
    }
    RowsKeptHashed(db, Perform(db, op));
  }

  lemma LoseOpHashed(db: Db, op: Op)
    requires HashedOk(db) && UndoOk(db) && (op.LoseFile? || op.LoseDir? || op.FinishPresence?)
    ensures HashedOk(Perform(db, op)) && UndoOk(Perform(db, op))
  {
    forall i | i in db.rows ensures NeedKept(db.rows[i], Perform(db, op).rows[i]) {
      if db.rows[i].Live() { LostNeedKept(db.rows[i], if op.FinishPresence? then op.scan else op.now); }
    }
    RowsKeptHashed(db, Perform(db, op));
  }

  lemma QueueOpHashed(db: Db, op: Op)
    requires HashedOk(db) && UndoOk(db) && QueueOp(op)
    ensures HashedOk(Perform(db, op)) && UndoOk(Perform(db, op))
  {
    forall i | i in db.rows ensures NeedKept(db.rows[i], Perform(db, op).rows[i]) {
    }
    RowsKeptHashed(db, Perform(db, op));
  }

  /** Every run from the empty tables, with operations in any order, stays well-formed. */
  lemma {:induction false} RunsStayWellFormed(db: Db, ops: seq<Op>)
    requires WellFormed(db) && forall j :: 0 <= j < |ops| ==> OpOk(ops[j])
    ensures WellFormed(Run(db, ops))
    decreases |ops|
  {
    if ops != [] {
      OperationWellFormed(db, ops[0]);
      RunsStayWellFormed(Perform(db, ops[0]), ops[1..]);
    }
  }

  const EMPTY := Db(map[], map[])

  ghost predicate IsReachable(db: Db) {
    exists ops: seq<Op> :: (forall j :: 0 <= j < |ops| ==> OpOk(ops[j])) && db == Run(EMPTY, ops)
  }

  lemma ReachableWellFormed(db: Db)
    requires IsReachable(db)
    ensures WellFormed(db)
  {
    var ops: seq<Op> :| (forall j :: 0 <= j < |ops| ==> OpOk(ops[j])) && db == Run(EMPTY, ops);
    RunsStayWellFormed(EMPTY, ops);
  }
}
