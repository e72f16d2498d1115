/**
 * Byte-verified history: with the report-mode backend a row counts as verified only
 * because a worker round compared its file, byte for byte, with its group's canonical file.
 */
module History {
  import opened Wrappers
  import opened Model
  import opened StoreSpec
  import opened OpsSpec
  import opened Pipeline
  import opened Operations
  import opened Sound
  import opened Canonical
  import opened Compare

  /** The report-mode backend, with any governor pausing it anywhere. */
  ghost predicate DryRunEnv(c: Ctx, e: Env) {
    && !c.destNeedsWrite && !c.sharesExtents
    && forall a, b, n :: IsDryRun(e, a, b, n)
  }

  ghost predicate IsDryRun(e: Env, a: Opened, b: Opened, n: nat) {
    exists verify: bool, paused: nat -> bool :: e.dedupe(a, b, n) == DryRun(verify, paused, a, b, n)
  }

  /** Verified, or gone from disk while it was: what a later sighting may restore. */
  ghost predicate Credited(r: Row) {
    || r.state.Verified? || r.state.Deduped?
    || (r.state.Missing? && (r.prev == Some(Verified) || r.prev == Some(Deduped)))
  }

  ghost predicate SharesExtents(r: Row) {
    r.state.Deduped? || (r.state.Missing? && r.prev == Some(Deduped))
  }

  /** The file a row stands for: its inode and the fingerprint the row stores. */
  ghost predicate SameFile(r: Row, s: Row) {
    r.key == s.key && r.Print() == s.Print()
  }

  /** Row `i` was hashed, `k` was the canonical member of its group, and their open files are equal. */
  ghost predicate Compares(db: Db, e: Env, i: RowId, k: RowId, g: GroupId, a: Opened, b: Opened) {
    && i in db.rows && db.rows[i].state.Hashed? && db.rows[i].group == Some(g)
    && g in db.groups && CanonicalMember(db, g) == Some(k) && k != i
    && e.open(db.rows[k].loc) == Ok(a) && a.identity.Print() == db.rows[k].Print()
    && e.open(db.rows[i].loc) == Ok(b) && b.identity.Print() == db.rows[i].Print()
    && a.identity.key != b.identity.key
    && a.identity.size == b.identity.size && AgreeOn(a, b, b.identity.size)
  }

  ghost predicate ByteEqual(db: Db, e: Env, i: RowId) {
    exists k, g, a, b :: Compares(db, e, i, k, g, a, b)
  }

  // ---------------------------------------------------------------- one round

  ghost predicate Marks(s: Stepped) {
    s.Ok? && s.value.Commit? && s.value.t.group.Some? && s.value.t.group.value.MarkVerified?
  }

  lemma SettleMarksNothing(c: Ctx, e: Env, id: RowId, r: Row)
    ensures !Marks(SettleStep(c, e, id, r))
  {
  }

  lemma PlaceMarksNothing(c: Ctx, e: Env, db: Db, id: RowId, h: Hash)
    requires id in db.rows
    ensures !Marks(PlaceInGroup(c, e, db, id, h))
  {
  }

  lemma HashMarksNothing(c: Ctx, e: Env, id: RowId, r: Row)
    ensures !Marks(ComputeHash(c, e, id, r))
  {
  }

  lemma OnlyHashedMarks(c: Ctx, e: Env, db: Db, id: RowId)
    requires id in db.rows && Marks(Step(c, e, db, id))
    ensures db.rows[id].state.Hashed? && Step(c, e, db, id) == VerifyStep(c, e, db, id)
  {
    var r := db.rows[id];
    if r.state.Settling? { SettleMarksNothing(c, e, id, r); }
    if r.state.Sized? {
      if r.sparse.Some? { PlaceMarksNothing(c, e, db, id, r.sparse.value); } else { HashMarksNothing(c, e, id, r); }
    }
  }

  lemma ComparedMarks(c: Ctx, e: Env, db: Db, id: RowId, g: GroupId, a: Opened, b: Opened)
    requires id in db.rows && IsDryRun(e, a, b, b.identity.size)
    requires Marks(Compared(c, e, db, id, g, a, b))
    ensures Compared(c, e, db, id, g, a, b) == Agree(c, id, g, b.identity)
    ensures AgreeOn(a, b, b.identity.size)
  {
    var n := b.identity.size;
    var verify: bool, paused: nat -> bool :| e.dedupe(a, b, n) == DryRun(verify, paused, a, b, n);
    if verify { CompareMeans(a, b, n, 0, paused); }
  }

  lemma OpenedMarks(c: Ctx, e: Env, db: Db, id: RowId, k: RowId, g: GroupId, a: Opened, b: Opened)
    requires id in db.rows && k in db.rows && Marks(VerifyOpened(c, e, db, id, k, g, a, b))
    ensures VerifyOpened(c, e, db, id, k, g, a, b) == Compared(c, e, db, id, g, a, b)
    ensures b.identity.Print() == db.rows[id].Print() && a.identity.Print() == db.rows[k].Print()
    ensures a.identity.key != b.identity.key && a.identity.size == b.identity.size
  {
  }

  lemma PairMarks(c: Ctx, e: Env, db: Db, id: RowId, k: RowId, g: GroupId) returns (a: Opened, b: Opened)
    requires id in db.rows && k in db.rows && !c.destNeedsWrite && Marks(VerifyPair(c, e, db, id, k, g))
    ensures e.open(db.rows[k].loc) == Ok(a) && e.open(db.rows[id].loc) == Ok(b)
    ensures VerifyPair(c, e, db, id, k, g) == VerifyOpened(c, e, db, id, k, g, a, b)
  {
    a, b := e.open(db.rows[k].loc).value, e.open(db.rows[id].loc).value;
  }

  lemma VerifyMarks(c: Ctx, e: Env, db: Db, id: RowId) returns (k: RowId, g: GroupId)
    requires id in db.rows && Marks(VerifyStep(c, e, db, id))
    ensures db.rows[id].group == Some(g) && g in db.groups && CanonicalMember(db, g) == Some(k) && k != id
    ensures VerifyStep(c, e, db, id) == VerifyPair(c, e, db, id, k, g)
  {
    g := db.rows[id].group.value;
    k := CanonicalMember(db, g).value;
  }

  /** A step that marks a group verified has just compared the two files. */
  lemma MarksCompared(c: Ctx, e: Env, db: Db, id: RowId) returns (g: GroupId, seen: Identity)
    requires id in db.rows && DryRunEnv(c, e) && Marks(Step(c, e, db, id))
    ensures ByteEqual(db, e, id) && seen.Print() == db.rows[id].Print()
    ensures db.rows[id].group == Some(g) && Step(c, e, db, id) == Agree(c, id, g, seen)
  {
    OnlyHashedMarks(c, e, db, id);
    var k;
    k, g := VerifyMarks(c, e, db, id);
    var a, b := PairMarks(c, e, db, id, k, g);
    OpenedMarks(c, e, db, id, k, g, a, b);
    assert IsDryRun(e, a, b, b.identity.size);
    ComparedMarks(c, e, db, id, g, a, b);
    seen := b.identity;
    assert Compares(db, e, id, k, g, a, b);
  }

  /** Where the credit of a row comes from: the row had it before, or this round compared its bytes. */
  ghost predicate CreditSource(db: Db, r: Row, i: RowId) {
    i in db.rows && Credited(db.rows[i]) && SameFile(db.rows[i], r) && (SharesExtents(r) ==> SharesExtents(db.rows[i]))
  }

  /** The round compared the row's bytes, and the row still stores that file's fingerprint. */
  ghost predicate CreditEarned(db: Db, e: Env, r: Row, i: RowId) {
    i in db.rows && SameFile(db.rows[i], r) && ByteEqual(db, e, i) && !SharesExtents(r)
  }

  /** Without a mark, a compare-and-set brings no row to credit. */
  lemma CasCredit(db: Db, t: Transition, cas: Cas)
    requires CasHolds(db.rows, cas) && CasHolds(db.rows, t.main) && CasOk(db, t, cas)
    requires t.group.Some? ==> !t.group.value.MarkVerified?
    requires Credited(PatchRow(db.rows[cas.id], cas, t.now))
    ensures CreditSource(db, PatchRow(db.rows[cas.id], cas, t.now), cas.id)
  {
  }

  /** The group operation changes group columns only. */
  lemma AppliedRow(db: Db, t: Transition, i: RowId)
    requires Steady(db, t) && Apply(db, t).Applied? && i in Apply(db, t).db.rows
    ensures i in db.rows && i in RowsAfter(db, t)
    ensures var r, m := Apply(db, t).db.rows[i], RowsAfter(db, t)[i]; r == m.(group := r.group)
  {
    CasAllKeys(CasUpdate(db.rows, t.main, t.now), t.others, t.now);
    var mid := db.(rows := RowsAfter(db, t));
    if t.group.Some? { GroupOpRow(mid, t.main.id, t.group.value, t.now, i); }
  }

  lemma UnmarkedCredit(db: Db, t: Transition, i: RowId)
    requires Steady(db, t) && (t.group.Some? ==> !t.group.value.MarkVerified?)
    requires Apply(db, t).Applied? && i in Apply(db, t).db.rows && Credited(Apply(db, t).db.rows[i])
    ensures CreditSource(db, Apply(db, t).db.rows[i], i)
  {
    AppliedRow(db, t, i);
    RowAfterIs(db, t, i);
    var m := RowsAfter(db, t)[i];
    if m == db.rows[i] {
    } else if i == t.main.id {
      CasCredit(db, t, t.main);
    } else {
      var j :| 0 <= j < |t.others| && t.others[j].id == i && m == PatchRow(db.rows[i], t.others[j], t.now);
      CasCredit(db, t, t.others[j]);
    }
  }

  lemma AgreeCredit(c: Ctx, db: Db, id: RowId, g: GroupId, seen: Identity, i: RowId)
    requires id in db.rows && db.rows[id].state.Hashed? && seen.Print() == db.rows[id].Print() && !c.sharesExtents
    requires var a := Apply(db, Agree(c, id, g, seen).value.t);
      a.Applied? && i in a.db.rows && Credited(a.db.rows[i])
    ensures var r := Apply(db, Agree(c, id, g, seen).value.t).db.rows[i];
      CreditSource(db, r, i) || (i == id && SameFile(db.rows[id], r) && r.state.Verified?)
  {
  }

  /** One worker round: credit is old, or earned by comparing all bytes in this very round. */
  lemma RoundCredit(c: Ctx, e: Env, db: Db, maxWait: int, i: RowId)
    requires DryRunEnv(c, e)
    ensures var round := Round(c, e, db, maxWait);
      round.Worked? && i in round.db.rows && Credited(round.db.rows[i]) ==>
        CreditSource(db, round.db.rows[i], i) || CreditEarned(db, e, round.db.rows[i], i)
  {
    var round := Round(c, e, db, maxWait);
    if round.Worked? && i in round.db.rows && Credited(round.db.rows[i]) {
      var id := NextReady(db.rows, c.now, c.allowHeavy, maxWait).value;
      var s := Step(c, e, db, id);
      StepSound(c, e, db, id);
      if Marks(s) {
        var g, seen := MarksCompared(c, e, db, id);
        AgreeCredit(c, db, id, g, seen, i);
      } else {
        UnmarkedCredit(db, Decide(c, id, db.rows[id], s), i);
      }
    }
  }

  // ---------------------------------------------------------------- the other operations

  lemma UpsertCredit(db: Db, seen: Identity, loc: FileLoc, readyAt: Ts, priority: nat, now: Ts, kind: RootKind,
                     i: RowId)
    requires var d := Upsert(db, seen, loc, readyAt, priority, now, kind); i in d.rows && Credited(d.rows[i])
    ensures CreditSource(db, Upsert(db, seen, loc, readyAt, priority, now, kind).rows[i], i)
  {
  }

  lemma {:induction false} ScanInsertCredit(rows: map<RowId, Row>, groups: map<GroupId, Group>, batch: seq<ScanRow>,
                                            now: Ts, i: RowId)
    requires forall j :: 0 <= j < |batch| ==> batch[j].state.Sized? || batch[j].state.Settling?
    requires i in ScanInsert(rows, batch, now) && Credited(ScanInsert(rows, batch, now)[i])
    ensures CreditSource(Db(rows, groups), ScanInsert(rows, batch, now)[i], i)
    decreases |batch|
  {
    if batch != [] {
      ScanInsertCredit(ScanInsertOne(rows, batch[0], now), groups, batch[1..], now, i);
    }
  }

  lemma PlaceOpCredit(db: Db, op: Op, i: RowId)
    requires PlaceOp(op) && i in Perform(db, op).rows && Credited(Perform(db, op).rows[i])
    ensures CreditSource(db, Perform(db, op).rows[i], i)
  {
  }

  lemma QueueOpCredit(db: Db, op: Op, i: RowId)
    requires (QueueOp(op) || op.PurgeGone?) && i in Perform(db, op).rows && Credited(Perform(db, op).rows[i])
    ensures CreditSource(db, Perform(db, op).rows[i], i)
  {
  }

  /** Worker rounds run the report-mode backend, and the scans insert rows still to be looked at. */
  ghost predicate OpOk(op: Op) {
    && (op.WorkerRound? ==> DryRunEnv(op.ctx, op.env))
    && (op.InsertBatch? ==> forall j :: 0 <= j < |op.batch| ==> op.batch[j].state.Sized? || op.batch[j].state.Settling?)
  }

  lemma OperationCredit(db: Db, op: Op, i: RowId)
    requires OpOk(op) && i in Perform(db, op).rows && Credited(Perform(db, op).rows[i])
    ensures var r := Perform(db, op).rows[i];
      CreditSource(db, r, i) || (op.WorkerRound? && CreditEarned(db, op.env, r, i))
  {
    match op
    case WorkerRound(c, e, maxWait) => if Round(c, e, db, maxWait).Worked? { RoundCredit(c, e, db, maxWait, i); }
    case UpsertPending(seen, loc, readyAt, priority, now, kind) =>
      UpsertCredit(db, seen, loc, readyAt, priority, now, kind, i);
    case RestoreRow(key, seen, now, kind) =>
      match FindByKey(db.rows, key) {
        case None =>
        case Some(k) =>
          if db.rows[k].state.Missing? {
            UpsertCredit(db, seen, db.rows[k].loc, now, db.rows[k].priority, now, kind, i);
          }
      }
    case SeeFile(key, fp, loc, now, kind) =>
      match FindByKey(db.rows, key) {
        case None =>
        case Some(k) =>
          var r := db.rows[k];
          var seen := Identity(key, r.domain, fp.size, fp.mtime, fp.ctime, r.nlink, r.uid, r.mode);
          if r.state.Missing? { UpsertCredit(db, seen, loc, now, r.priority, now, kind, i); }
      }
    case InsertBatch(batch, now) => ScanInsertCredit(db.rows, db.groups, batch, now, i);
    case _ => if PlaceOp(op) { PlaceOpCredit(db, op, i); } else { QueueOpCredit(db, op, i); }
  }

  // ---------------------------------------------------------------- whole runs

  /** Step `j` of the run is a worker round that compared row `i`, whose fingerprint is still `r`'s. */
  ghost predicate EarnedAt(db: Db, ops: seq<Op>, j: nat, i: RowId, r: Row) {
    && j < |ops| && ops[j].WorkerRound? && !SharesExtents(r)
    && var was := Run(db, ops[..j]);
       i in was.rows && SameFile(was.rows[i], r) && ByteEqual(was, ops[j].env, i)
  }

  lemma {:induction false} RunSplit(db: Db, ops: seq<Op>, op: Op)
    ensures Run(db, ops + [op]) == Perform(Run(db, ops), op)
    decreases |ops|
  {
    if ops == [] {
      assert ([] + [op])[1..] == [];
    } else {
      assert (ops + [op])[1..] == ops[1..] + [op];
      RunSplit(Perform(db, ops[0]), ops[1..], op);
    }
  }

  /**
   * Whatever operations interleave, a row is verified, or was when it vanished, only if it
   * was so at the start or some worker round of the run compared all its bytes with the
   * canonical file of its group, and the row still names that inode and that fingerprint.
   */
  lemma {:induction false} VerifiedMeansCompared(db: Db, ops: seq<Op>, i: RowId)
    requires forall j :: 0 <= j < |ops| ==> OpOk(ops[j])
    requires i in Run(db, ops).rows && Credited(Run(db, ops).rows[i])
    ensures var r := Run(db, ops).rows[i];
      CreditSource(db, r, i) || exists j: nat :: EarnedAt(db, ops, j, i, r)
    decreases |ops|
  {
    if ops != [] {
      var r, n := Run(db, ops).rows[i], |ops| - 1;
      var front, last := ops[..n], ops[n];
      assert ops == front + [last];
      RunSplit(db, front, last);
      var was := Run(db, front);
      OperationCredit(was, last, i);
      if CreditSource(was, r, i) {
        VerifiedMeansCompared(db, front, i);
        if !CreditSource(db, r, i) {
          var j: nat :| EarnedAt(db, front, j, i, was.rows[i]);
          assert front[..j] == ops[..j];
          assert EarnedAt(db, ops, j, i, r);
        }
      } else {
        assert EarnedAt(db, ops, n, i, r);
      }
    }
  }

  /** From the empty tables: every verified row was compared, and none is ever `deduped`. */
  lemma ReportModeOnlyVerifies(ops: seq<Op>, i: RowId)
    requires forall j :: 0 <= j < |ops| ==> OpOk(ops[j])
    requires var end := Run(Db(map[], map[]), ops); i in end.rows && Credited(end.rows[i])
    ensures var r := Run(Db(map[], map[]), ops).rows[i];
      !SharesExtents(r) && exists j: nat :: EarnedAt(Db(map[], map[]), ops, j, i, r)
  {
    VerifiedMeansCompared(Db(map[], map[]), ops, i);
  }
}
