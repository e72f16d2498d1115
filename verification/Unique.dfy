/** One row a file: every operation keeps the keys of the rows distinct, as the table's constraint demands. */
module Unique {
  import opened Model
  import opened StoreSpec
  import opened OpsSpec
  import opened Pipeline
  import opened Operations

  /** Rows may go, but none changes its key and none is new. */
  ghost predicate KeysKept(rows: map<RowId, Row>, rows': map<RowId, Row>) {
    forall i :: i in rows' ==> i in rows && rows'[i].key == rows[i].key
  }

  lemma KeptUnique(rows: map<RowId, Row>, rows': map<RowId, Row>)
    requires UniqueKeys(rows) && KeysKept(rows, rows')
    ensures UniqueKeys(rows')
  {
  }

  lemma {:induction false} CasAllKeepsKeys(rows: map<RowId, Row>, cs: seq<Cas>, now: Ts)
    ensures KeysKept(rows, CasAll(rows, cs, now))
  {
    if cs != [] { CasAllKeepsKeys(CasUpdate(rows, cs[0], now), cs[1..], now); }
  }

  lemma GroupOpKeepsKeys(db: Db, row: RowId, op: GroupOp, now: Ts)
    requires GroupOpAllowed(db, row, op)
    ensures KeysKept(db.rows, ApplyGroupOp(db, row, op, now).rows)
  {
    var rows := ApplyGroupOp(db, row, op, now).rows;
    forall i | i in rows ensures i in db.rows && rows[i].key == db.rows[i].key {
      GroupOpRow(db, row, op, now, i);
    }
  }

  lemma ApplyKeepsKeys(db: Db, t: Transition)
    ensures Apply(db, t).Applied? ==> KeysKept(db.rows, Apply(db, t).db.rows)
  {
    var a := Apply(db, t);
    if a.Applied? && a.won {
      var mid := CasUpdate(db.rows, t.main, t.now);
      CasAllKeepsKeys(mid, t.others, t.now);
      CasAllKeys(mid, t.others, t.now);
      var db1 := db.(rows := CasAll(mid, t.others, t.now));
      if t.group.Some? { GroupOpKeepsKeys(db1, t.main.id, t.group.value, t.now); }
    }
  }

  lemma RoundKeepsKeys(c: Ctx, e: Env, db: Db, maxWait: int)
    ensures var r := Round(c, e, db, maxWait); r.Worked? ==> KeysKept(db.rows, r.db.rows)
  {
    var next := NextReady(db.rows, c.now, c.allowHeavy, maxWait);
    if next.Some? { ApplyKeepsKeys(db, Decide(c, next.value, db.rows[next.value], Step(c, e, db, next.value))); }
  }

  lemma UpsertUnique(db: Db, seen: Identity, loc: FileLoc, readyAt: Ts, priority: nat, now: Ts, kind: RootKind)
    requires UniqueKeys(db.rows)
    ensures UniqueKeys(Upsert(db, seen, loc, readyAt, priority, now, kind).rows)
  {
  }

  lemma {:induction false} ScanInsertUnique(rows: map<RowId, Row>, batch: seq<ScanRow>, now: Ts)
    requires UniqueKeys(rows)
    ensures UniqueKeys(ScanInsert(rows, batch, now))
    decreases |batch|
  {
    if batch != [] { ScanInsertUnique(ScanInsertOne(rows, batch[0], now), batch[1..], now); }
  }

  /** The operations that insert no row. */
  ghost predicate InsertsNothing(op: Op) {
    && !op.WorkerRound? && !op.UpsertPending? && !op.RestoreRow? && !op.SeeFile? && !op.InsertBatch?
  }

  lemma OtherOpKeepsKeys(db: Db, op: Op)
    requires InsertsNothing(op)
    ensures KeysKept(db.rows, Perform(db, op).rows)
  {
  }

  lemma OperationUnique(db: Db, op: Op)
    requires UniqueKeys(db.rows)
    ensures UniqueKeys(Perform(db, op).rows)
  {
    match op
    case WorkerRound(c, e, maxWait) =>
      RoundKeepsKeys(c, e, db, maxWait);
      KeptUnique(db.rows, Perform(db, op).rows);
    case UpsertPending(seen, loc, readyAt, priority, now, kind) =>
      UpsertUnique(db, seen, loc, readyAt, priority, now, kind);
    case RestoreRow(key, seen, now, kind) =>
      var i := FindByKey(db.rows, key);
      if i.Some? { UpsertUnique(db, seen, db.rows[i.value].loc, now, db.rows[i.value].priority, now, kind); }
    case SeeFile(key, fp, loc, now, kind) =>
      var i := FindByKey(db.rows, key);
      if i.Some? {
        var r := db.rows[i.value];
        var seen := Identity(key, r.domain, fp.size, fp.mtime, fp.ctime, r.nlink, r.uid, r.mode);
        UpsertUnique(db, seen, loc, now, r.priority, now, kind);
      }
    case InsertBatch(batch, now) => ScanInsertUnique(db.rows, batch, now);
    case _ =>
      OtherOpKeepsKeys(db, op);
      KeptUnique(db.rows, Perform(db, op).rows);
  }

  /** Over every interleaving of operations, each inode has at most one row. */
  lemma {:induction false} KeysStayUnique(db: Db, ops: seq<Op>)
    requires UniqueKeys(db.rows)
    ensures UniqueKeys(Run(db, ops).rows)
    decreases |ops|
  {
    if ops != [] {
      OperationUnique(db, ops[0]);
      KeysStayUnique(Perform(db, ops[0]), ops[1..]);
    }
  }
}
