/**
 * Canonical pointers never dangle: whatever operations interleave, a group that
 * names a canonical file names an existing member of that group.
 */
module Canonical {
  import opened Wrappers
  import opened Model
  import opened Selection
  import opened StoreSpec
  import opened OpsSpec
  import opened Pipeline
  import opened Operations
  import opened Sound

  /** A row that may be a group's canonical file: in the role, or gone from disk while in it. */
  ghost predicate InRole(r: Row, g: GroupId) {
    && r.group == Some(g)
    && (r.state.Canonical? || r.state.Gone? || (r.state.Missing? && r.prev == Some(Canonical)))
  }

  ghost predicate PointerOk(db: Db, g: GroupId)
    requires g in db.groups
  {
    match db.groups[g].canonical
    case None => true
    case Some(k) => k in db.rows && InRole(db.rows[k], g)
  }

  /** Foreign key `files.group_id REFERENCES content_groups(id)`. */
  ghost predicate RefOk(groups: map<GroupId, Group>, r: Row) {
    r.group.Some? ==> r.group.value in groups
  }

  ghost predicate PointersOk(db: Db) {
    && (forall g :: g in db.groups ==> PointerOk(db, g))
    && (forall i :: i in db.rows ==> RefOk(db.groups, db.rows[i]))
  }

  ghost predicate Unpointed(db: Db, i: RowId) {
    forall g :: g in db.groups ==> db.groups[g].canonical != Some(i)
  }

  /** Ids that no row has and rows outside the role are not pointed at. */
  lemma OutOfRoleUnpointed(db: Db, i: RowId)
    requires PointersOk(db)
    requires i in db.rows ==> !db.rows[i].state.Canonical? && !db.rows[i].state.OffDisk()
    ensures Unpointed(db, i)
  {
    forall g | g in db.groups ensures db.groups[g].canonical != Some(i) { assert PointerOk(db, g); }
  }

  /**
   * The general step: outside `touched` rows are kept, groups keep their pointer or lose it,
   * except `g0`, which may be repointed to a row in its role.
   */
  lemma PointersKept(db: Db, db': Db, touched: set<RowId>, g0: Option<GroupId>)
    requires PointersOk(db)
    requires forall i :: i in db.rows && i !in touched ==> i in db'.rows && db'.rows[i] == db.rows[i]
    requires forall i :: i in db'.rows && (i !in db.rows || i in touched) ==> RefOk(db'.groups, db'.rows[i])
    requires forall g :: g in db.groups ==> g in db'.groups
    requires forall g :: g in db'.groups && Some(g) != g0 ==>
      db'.groups[g].canonical == None || (g in db.groups && db'.groups[g].canonical == db.groups[g].canonical)
    requires forall i :: i in touched ==> forall g ::
      g in db'.groups && db'.groups[g].canonical == Some(i) && Some(g) != g0 ==> i in db'.rows && InRole(db'.rows[i], g)
    requires g0.Some? && g0.value in db'.groups ==> PointerOk(db', g0.value)
    ensures PointersOk(db')
  {
    forall g | g in db'.groups ensures PointerOk(db', g) {
      if Some(g) != g0 && db'.groups[g].canonical.Some? {
        assert PointerOk(db, g);
      }
    }
  }

  // ---------------------------------------------------------------- rows changed in place

  /** A change of rows that keeps every member of a group that could be pointed at in its role. */
  ghost predicate RoleKept(r: Row, r': Row) {
    r'.group == r.group && forall g :: InRole(r, g) ==> InRole(r', g)
  }

  lemma InPlaceKept(db: Db, db': Db)
    requires PointersOk(db) && db'.rows.Keys == db.rows.Keys && db'.groups == db.groups
    requires forall i :: i in db.rows ==> RoleKept(db.rows[i], db'.rows[i])
    ensures PointersOk(db')
  {
    forall g | g in db'.groups ensures PointerOk(db', g) { assert PointerOk(db, g); }
    forall i | i in db'.rows ensures RefOk(db'.groups, db'.rows[i]) { assert RefOk(db.groups, db.rows[i]); }
  }

  // ---------------------------------------------------------------- operations

  lemma UpsertKept(db: Db, seen: Identity, loc: FileLoc, readyAt: Ts, priority: nat, now: Ts, kind: RootKind)
    requires PointersOk(db)
    ensures PointersOk(Upsert(db, seen, loc, readyAt, priority, now, kind))
  {
    var db' := Upsert(db, seen, loc, readyAt, priority, now, kind);
    match FindByKey(db.rows, seen.key)
    case None =>
      var n := NextId(db.rows.Keys);
      OutOfRoleUnpointed(db, n);
      PointersKept(db, db', {n}, None);
    case Some(i) =>
      assert RefOk(db.groups, db.rows[i]);
      forall g | g in db'.groups && db'.groups[g].canonical == Some(i) ensures InRole(db'.rows[i], g) {
        assert PointerOk(db, g);
      }
      PointersKept(db, db', {i}, None);
  }

  lemma {:induction false} ScanInsertKept(db: Db, batch: seq<ScanRow>, now: Ts)
    requires PointersOk(db)
    ensures PointersOk(db.(rows := ScanInsert(db.rows, batch, now)))
    decreases |batch|
  {
    if batch != [] {
      var next := ScanInsertOne(db.rows, batch[0], now);
      var n := NextId(db.rows.Keys);
      OutOfRoleUnpointed(db, n);
      PointersKept(db, db.(rows := next), {n}, None);
      ScanInsertKept(db.(rows := next), batch[1..], now);
    }
  }

  lemma PurgeKept(db: Db, now: Ts, retention: int)
    requires PointersOk(db)
    ensures PointersOk(Purge(db, now, retention))
  {
    var db' := Purge(db, now, retention);
    forall g | g in db'.groups ensures PointerOk(db', g) { assert PointerOk(db, g); }
    forall i | i in db'.rows ensures RefOk(db'.groups, db'.rows[i]) { assert RefOk(db.groups, db.rows[i]); }
  }

  // ---------------------------------------------------------------- transitions of the pipeline

  ghost predicate Mentions(t: Transition, i: RowId) {
    i == t.main.id || exists j :: 0 <= j < |t.others| && t.others[j].id == i
  }

  ghost function RowsAfter(db: Db, t: Transition): map<RowId, Row> {
    CasAll(CasUpdate(db.rows, t.main, t.now), t.others, t.now)
  }

  lemma {:induction false} CasAllRefs(rows: map<RowId, Row>, cs: seq<Cas>, now: Ts, groups: map<GroupId, Group>)
    requires forall i :: i in rows ==> RefOk(groups, rows[i])
    requires forall j :: 0 <= j < |cs| ==> CasRefOk(groups, cs[j])
    ensures var s := CasAll(rows, cs, now); forall i :: i in s ==> RefOk(groups, s[i])
  {
    if cs != [] {
      var next := CasUpdate(rows, cs[0], now);
      assert CasRefOk(groups, cs[0]);
      forall i | i in next ensures RefOk(groups, next[i]) {
        assert i in rows && RefOk(groups, rows[i]);
      }
      CasAllRefs(next, cs[1..], now, groups);
      assert CasAll(rows, cs, now) == CasAll(next, cs[1..], now);
    }
  }

  lemma RowsAfterFacts(db: Db, t: Transition)
    requires PointersOk(db) && Steady(db, t)
    ensures RowsAfter(db, t).Keys == db.rows.Keys
    ensures forall i :: i in db.rows && !Mentions(t, i) ==> RowsAfter(db, t)[i] == db.rows[i]
    ensures forall i :: i in db.rows ==> RefOk(db.groups, RowsAfter(db, t)[i])
    ensures RowsAfter(db, t)[t.main.id].state == t.main.to
  {
    var mid := CasUpdate(db.rows, t.main, t.now);
    CasAllKeys(mid, t.others, t.now);
    CasAllRefs(db.rows, [t.main], t.now, db.groups);
    assert [t.main][1..] == [];
    assert CasAll(db.rows, [t.main], t.now) == mid;
    CasAllRefs(mid, t.others, t.now, db.groups);
    forall i | i in db.rows && !Mentions(t, i) ensures RowsAfter(db, t)[i] == db.rows[i] {
      CasAllMiss(mid, t.others, t.now, i);
    }
    CasAllMiss(mid, t.others, t.now, t.main.id);
  }

  /** Each row of a sound transition: as before, or patched by the one compare-and-set that names it. */
  lemma RowAfterIs(db: Db, t: Transition, i: RowId)
    requires Steady(db, t) && i in db.rows
    ensures i in RowsAfter(db, t)
    ensures || (!Mentions(t, i) && RowsAfter(db, t)[i] == db.rows[i])
            || (i == t.main.id && RowsAfter(db, t)[i] == PatchRow(db.rows[i], t.main, t.now))
            || exists j :: 0 <= j < |t.others| && t.others[j].id == i
                           && RowsAfter(db, t)[i] == PatchRow(db.rows[i], t.others[j], t.now)
  {
    var mid := CasUpdate(db.rows, t.main, t.now);
    if i == t.main.id { CasAllMiss(mid, t.others, t.now, i); }
    else if Mentions(t, i) {
      var j :| 0 <= j < |t.others| && t.others[j].id == i;
      CasAllHit(mid, t.others, t.now, j);
    } else { CasAllMiss(mid, t.others, t.now, i); }
  }

  ghost function Touched(db: Db, t: Transition): set<RowId> {
    set i | i in db.rows && Mentions(t, i)
  }

  lemma MentionedUnpointed(db: Db, t: Transition)
    requires PointersOk(db) && Steady(db, t) && OutOfRole(t)
    ensures forall i :: i in Touched(db, t) ==> Unpointed(db, i)
  {
    forall i | i in Touched(db, t) ensures Unpointed(db, i) { OutOfRoleUnpointed(db, i); }
  }

  lemma SoundKept(db: Db, t: Transition)
    requires PointersOk(db) && IsSound(db, t)
    ensures var a := Apply(db, t); a.Applied? ==> PointersOk(a.db)
  {
    RowsAfterFacts(db, t);
    var a := Apply(db, t);
    if a.Applied? {
      match t.group
      case None =>
        MentionedUnpointed(db, t);
        PointersKept(db, a.db, Touched(db, t), None);
      case Some(MarkVerified(g, _)) =>
        MentionedUnpointed(db, t);
        PointersKept(db, a.db, Touched(db, t), None);
      case Some(SetCanonical(g, _)) => SetCanonicalKept(db, t, g);
      case Some(Create(origin, hash, version)) => CreateKept(db, t, origin, hash, version);
    }
  }

  lemma SetCanonicalKept(db: Db, t: Transition, g: GroupId)
    requires PointersOk(db) && Steady(db, t) && t.group == Some(SetCanonical(g, t.main.id)) && t.main.to.Canonical?
    requires g in db.groups && (t.others == [] || (|t.others| == 1 && db.groups[g].canonical == Some(t.others[0].id)))
    ensures var a := Apply(db, t); a.Applied? ==> PointersOk(a.db)
  {
    RowsAfterFacts(db, t);
    var a := Apply(db, t);
    OutOfRoleUnpointed(db, t.main.id);
    assert PointerOk(db, g);
    forall i, x | i in Touched(db, t) && x in a.db.groups && a.db.groups[x].canonical == Some(i)
      ensures x == g
    {
      assert PointerOk(db, x);
    }
    PointersKept(db, a.db, Touched(db, t), Some(g));
  }

  /** The origin of a new group is made canonical by the same transition. */
  ghost predicate MakesCanonical(t: Transition, origin: RowId) {
    || (origin == t.main.id && t.main.to.Canonical?)
    || exists j :: 0 <= j < |t.others| && t.others[j].id == origin && t.others[j].to.Canonical?
  }

  /** The tables after a group is created: the acting row and the origin get its id. */
  lemma CreateDb(db: Db, t: Transition, origin: RowId, hash: Hash, version: nat)
    requires Steady(db, t) && origin in db.rows && t.group == Some(Create(origin, hash, version))
    ensures var a := Apply(db, t);
      var gid := NextId(db.groups.Keys);
      var rows := RowsAfter(db, t);
      && a.Applied? && t.main.id in rows && gid !in db.groups
      && a.db.groups == db.groups[gid := Group(rows[t.main.id].domain, rows[t.main.id].size, hash, version,
                                               None, Some(origin), None, t.now)]
      && a.db.rows.Keys == rows.Keys == db.rows.Keys
      && forall i :: i in rows ==>
           a.db.rows[i] == if i == t.main.id || i == origin then rows[i].(group := Some(gid)) else rows[i]
  {
    ApplyCreate(db, t.main, t.others, origin, hash, version, t.now);
    CasAllMiss(CasUpdate(db.rows, t.main, t.now), t.others, t.now, t.main.id);
  }

  lemma CreateKept(db: Db, t: Transition, origin: RowId, hash: Hash, version: nat)
    requires PointersOk(db) && Steady(db, t) && OutOfRole(t) && MakesCanonical(t, origin)
    requires t.group == Some(Create(origin, hash, version))
    ensures Apply(db, t).Applied? && PointersOk(Apply(db, t).db)
  {
    RowsAfterFacts(db, t);
    MentionedUnpointed(db, t);
    OriginInRole(db, t, origin);
    CreateDb(db, t, origin, hash, version);
    NewGroupKept(db, RowsAfter(db, t), Apply(db, t).db, Touched(db, t), t.main.id, origin, NextId(db.groups.Keys));
  }

  lemma OriginInRole(db: Db, t: Transition, origin: RowId)
    requires PointersOk(db) && Steady(db, t) && MakesCanonical(t, origin)
    ensures origin in Touched(db, t) && origin in RowsAfter(db, t) && RowsAfter(db, t)[origin].state.Canonical?
  {
    RowsAfterFacts(db, t);
    if !(origin == t.main.id && t.main.to.Canonical?) {
      var j :| 0 <= j < |t.others| && t.others[j].id == origin && t.others[j].to.Canonical?;
      CasAllHit(CasUpdate(db.rows, t.main, t.now), t.others, t.now, j);
    }
  }

  lemma NewGroupKept(db: Db, rows: map<RowId, Row>, db': Db, touched: set<RowId>, main: RowId, origin: RowId,
                     gid: GroupId)
    requires PointersOk(db) && gid !in db.groups && gid in db'.groups
    requires main in touched && origin in touched && forall i :: i in touched ==> i in db.rows && Unpointed(db, i)
    requires rows.Keys == db.rows.Keys && rows[origin].state.Canonical?
    requires forall i :: i in rows ==> RefOk(db.groups, rows[i])
    requires forall i :: i in rows && i !in touched ==> rows[i] == db.rows[i]
    requires db'.groups == db.groups[gid := db'.groups[gid]] && db'.groups[gid].canonical == Some(origin)
    requires db'.rows.Keys == rows.Keys
    requires forall i :: i in rows ==>
      db'.rows[i] == if i == main || i == origin then rows[i].(group := Some(gid)) else rows[i]
    ensures PointersOk(db')
  {
    PointersKept(db, db', touched, Some(gid));
  }

  /** A compare-and-set that does not hold passes its row by. */
  lemma {:induction false} CasAllPasses(rows: map<RowId, Row>, cs: seq<Cas>, now: Ts, j: nat)
    requires j < |cs| && DistinctIds(cs) && cs[j].id in rows && !CasHolds(rows, cs[j])
    ensures cs[j].id in CasAll(rows, cs, now) && CasAll(rows, cs, now)[cs[j].id] == rows[cs[j].id]
  {
    var next := CasUpdate(rows, cs[0], now);
    if j == 0 { CasAllMiss(next, cs[1..], now, cs[0].id); }
    else { CasAllPasses(next, cs[1..], now, j - 1); }
  }

  /**
   * Were a round not one atomic step, the tables could change between its read and its write.
   * Then a new group's pointer is sound exactly when its origin is still in the state that was
   * read, or has come into the role meanwhile: the other rows of a transition are best effort.
   */
  lemma StaleCreatePointer(db: Db, t: Transition, origin: RowId, hash: Hash, version: nat, j: nat)
    requires t.group == Some(Create(origin, hash, version)) && CasHolds(db.rows, t.main)
    requires origin in db.rows && DistinctIds(t.others)
    requires forall i :: 0 <= i < |t.others| ==> t.others[i].id != t.main.id
    requires j < |t.others| && t.others[j].id == origin && t.others[j].to.Canonical?
    ensures var a := Apply(db, t);
      var gid := NextId(db.groups.Keys);
      && a.Applied? && gid in a.db.groups
      && (PointerOk(a.db, gid) <==>
            CasHolds(db.rows, t.others[j]) || InRole(db.rows[origin].(group := Some(gid)), gid))
  {
    ApplyCreate(db, t.main, t.others, origin, hash, version, t.now);
    var mid := CasUpdate(db.rows, t.main, t.now);
    if CasHolds(db.rows, t.others[j]) { CasAllHit(mid, t.others, t.now, j); }
    else { CasAllPasses(mid, t.others, t.now, j); }
  }

  /** A worker round, read and write together, keeps the pointers. */
  lemma RoundKept(c: Ctx, e: Env, db: Db, maxWait: int)
    requires PointersOk(db)
    ensures var r := Round(c, e, db, maxWait); r.Worked? ==> PointersOk(r.db)
  {
    match NextReady(db.rows, c.now, c.allowHeavy, maxWait)
    case None =>
    case Some(id) =>
      StepSound(c, e, db, id);
      SoundKept(db, Decide(c, id, db.rows[id], Step(c, e, db, id)));
  }

  // ---------------------------------------------------------------- every operation, every run

  /** The operations that move rows or take them off disk. */
  ghost predicate PlaceOp(op: Op) {
    op.RenameFile? || op.RenameDir? || op.LoseFile? || op.LoseDir? || op.FinishPresence? || op.ExpirePresence?
  }

  lemma PlaceOpKept(db: Db, op: Op)
    requires PointersOk(db) && PlaceOp(op)
    ensures PointersOk(Perform(db, op))
  {
    InPlaceKept(db, Perform(db, op));
  }

  /** The operations that change queue columns of the rows a condition selects. */
  ghost predicate QueueOp(op: Op) {
    op.ClosePhaseB? || op.ParkDomain? || op.UnparkDomain? || op.RequeueVerified?
  }

  lemma QueueOpKept(db: Db, op: Op)
    requires PointersOk(db) && QueueOp(op)
    ensures PointersOk(Perform(db, op))
  {
    InPlaceKept(db, Perform(db, op));
  }

  lemma OperationKept(db: Db, op: Op)
    requires PointersOk(db)
    ensures PointersOk(Perform(db, op))
  {
    match op
    case WorkerRound(c, e, maxWait) => RoundKept(c, e, db, maxWait);
    case UpsertPending(seen, loc, readyAt, priority, now, kind) =>
      UpsertKept(db, seen, loc, readyAt, priority, now, kind);
    case RestoreRow(key, seen, now, kind) =>
      match FindByKey(db.rows, key) {
        case None =>
        case Some(i) => UpsertKept(db, seen, db.rows[i].loc, now, db.rows[i].priority, now, kind);
      }
    case SeeFile(key, fp, loc, now, kind) =>
      match FindByKey(db.rows, key) {
        case None =>
        case Some(i) =>
          var r := db.rows[i];
          var seen := Identity(key, r.domain, fp.size, fp.mtime, fp.ctime, r.nlink, r.uid, r.mode);
          UpsertKept(db, seen, loc, now, r.priority, now, kind);
      }
    case InsertBatch(batch, now) => ScanInsertKept(db, batch, now);
    case PurgeGone(now, retention) => PurgeKept(db, now, retention);
    case _ => if PlaceOp(op) { PlaceOpKept(db, op); } else { QueueOpKept(db, op); }
  }

  /** From any state with sound pointers, no interleaving of operations makes one dangle. */
  lemma {:induction false} PointersNeverDangle(db: Db, ops: seq<Op>)
    requires PointersOk(db)
    ensures PointersOk(Run(db, ops))
    decreases |ops|
  {
    if ops != [] {
      OperationKept(db, ops[0]);
      PointersNeverDangle(Perform(db, ops[0]), ops[1..]);
    }
  }
}
