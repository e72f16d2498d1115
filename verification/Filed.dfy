/**
 * Members of a group carry its key: a row in a group has the group's domain, size and hash, so
 * verification only ever compares files of one size. Every operation keeps this, and a worker
 * round does exactly when it does not mark a canonical row missing that is off disk already.
 */
module Filed {
  import opened Wrappers
  import opened Model
  import opened Selection
  import opened StoreSpec
  import opened OpsSpec
  import opened Pipeline
  import opened Operations
  import opened Grouping
  import opened Sound
  import opened Canonical

  // ---------------------------------------------------------------- transitions

  ghost predicate NoneLosesAgain(t: Transition) {
    forall j :: 0 <= j < |t.others| ==> !LosesAgain(t.others[j])
  }

  /** A row of a sound transition is filed under the old groups before the group operation. */
  lemma RowAfterFiled(db: Db, t: Transition, i: RowId)
    requires Steady(db, t) && FiledOk(db) && NoneLosesAgain(t) && i in db.rows
    ensures i in RowsAfter(db, t) && RowFiled(db.groups, RowsAfter(db, t)[i])
  {
    RowAfterIs(db, t, i);
    if i != t.main.id && RowsAfter(db, t)[i] != db.rows[i] {
      var j :| 0 <= j < |t.others| && t.others[j].id == i
               && RowsAfter(db, t)[i] == PatchRow(db.rows[i], t.others[j], t.now);
      assert CasOk(db, t, t.others[j]);
    }
  }

  /** Groups keep their keys. */
  ghost predicate GroupKept(groups: map<GroupId, Group>, groups': map<GroupId, Group>) {
    forall g :: g in groups ==>
      && g in groups' && groups'[g].domain == groups[g].domain
      && groups'[g].size == groups[g].size && groups'[g].hash == groups[g].hash
  }

  lemma FiledStays(groups: map<GroupId, Group>, groups': map<GroupId, Group>, r: Row)
    requires RowFiled(groups, r) && GroupKept(groups, groups')
    ensures RowFiled(groups', r)
  {
  }

  lemma GroupOpKeepsGroups(db: Db, row: RowId, op: GroupOp, now: Ts)
    requires GroupOpAllowed(db, row, op)
    ensures GroupKept(db.groups, ApplyGroupOp(db, row, op, now).groups)
  {
  }

  /** The row a sound transition puts into a group has the group's key. */
  lemma SetCanonicalFiled(db: Db, t: Transition, g: GroupId)
    requires IsSound(db, t) && FiledOk(db) && NoneLosesAgain(t) && t.group == Some(SetCanonical(g, t.main.id))
    ensures Apply(db, t).Applied? ==> FiledOk(Apply(db, t).db)
  {
    var a := Apply(db, t);
    if a.Applied? {
      var mid := db.(rows := RowsAfter(db, t));
      CasAllKeys(CasUpdate(db.rows, t.main, t.now), t.others, t.now);
      GroupOpKeepsGroups(mid, t.main.id, t.group.value, t.now);
      CasAllMiss(CasUpdate(db.rows, t.main, t.now), t.others, t.now, t.main.id);
      forall i | i in a.db.rows ensures RowFiled(a.db.groups, a.db.rows[i]) {
        GroupOpRow(mid, t.main.id, t.group.value, t.now, i);
        RowAfterFiled(db, t, i);
        FiledStays(db.groups, a.db.groups, mid.rows[i]);
      }
    }
  }

  lemma CreateFiled(db: Db, t: Transition, origin: RowId, hash: Hash, version: nat)
    requires IsSound(db, t) && FiledOk(db) && NoneLosesAgain(t) && t.group == Some(Create(origin, hash, version))
    ensures Apply(db, t).Applied? ==> FiledOk(Apply(db, t).db)
  {
    var a := Apply(db, t);
    if a.Applied? {
      CreateDb(db, t, origin, hash, version);
      CasAllMiss(CasUpdate(db.rows, t.main, t.now), t.others, t.now, t.main.id);
      OriginFits(db, t, origin, hash, version);
      forall i | i in db.rows ensures RowFiled(db.groups, RowsAfter(db, t)[i]) { RowAfterFiled(db, t, i); }
      NewGroupFiled(db.groups, RowsAfter(db, t), a.db, t.main.id, origin, NextId(db.groups.Keys));
    }
  }

  lemma NewGroupFiled(groups: map<GroupId, Group>, rows: map<RowId, Row>, db': Db, main: RowId, origin: RowId,
                      gid: GroupId)
    requires main in rows && origin in rows && gid !in groups && gid in db'.groups
    requires forall i :: i in rows ==> RowFiled(groups, rows[i])
    requires db'.groups == groups[gid := db'.groups[gid]] && db'.rows.Keys == rows.Keys
    requires forall i :: i in rows ==>
      db'.rows[i] == if i == main || i == origin then rows[i].(group := Some(gid)) else rows[i]
    requires var g := db'.groups[gid];
      Fits(rows[main], g.domain, g.size, g.hash) && Fits(rows[origin], g.domain, g.size, g.hash)
    ensures FiledOk(db')
  {
    forall i | i in db'.rows ensures RowFiled(db'.groups, db'.rows[i]) {
      if i != main && i != origin { FiledStays(groups, db'.groups, rows[i]); }
    }
  }

  lemma OriginFits(db: Db, t: Transition, origin: RowId, hash: Hash, version: nat)
    requires IsSound(db, t) && FiledOk(db) && t.group == Some(Create(origin, hash, version)) && origin in db.rows
    ensures origin in RowsAfter(db, t)
    ensures var m := PatchRow(db.rows[t.main.id], t.main, t.now); Fits(RowsAfter(db, t)[origin], m.domain, m.size, hash)
  {
    CasAllMiss(CasUpdate(db.rows, t.main, t.now), t.others, t.now, t.main.id);
    if origin != t.main.id {
      var j :| 0 <= j < |t.others| && t.others[j].id == origin && t.others[j].to.Canonical?;
      CasAllHit(CasUpdate(db.rows, t.main, t.now), t.others, t.now, j);
    }
  }

  lemma PlainFiled(db: Db, t: Transition)
    requires IsSound(db, t) && FiledOk(db) && NoneLosesAgain(t)
    requires t.group.None? || t.group.value.MarkVerified?
    ensures Apply(db, t).Applied? ==> FiledOk(Apply(db, t).db)
  {
    var a := Apply(db, t);
    if a.Applied? {
      var mid := db.(rows := RowsAfter(db, t));
      CasAllKeys(CasUpdate(db.rows, t.main, t.now), t.others, t.now);
      forall i | i in a.db.rows ensures RowFiled(a.db.groups, a.db.rows[i]) {
        RowAfterFiled(db, t, i);
        if t.group.Some? {
          GroupOpKeepsGroups(mid, t.main.id, t.group.value, t.now);
          FiledStays(db.groups, a.db.groups, mid.rows[i]);
        }
      }
    }
  }

  lemma ApplyFiled(db: Db, t: Transition)
    requires IsSound(db, t) && FiledOk(db) && NoneLosesAgain(t)
    ensures Apply(db, t).Applied? ==> FiledOk(Apply(db, t).db)
  {
    match t.group
    case None => PlainFiled(db, t);
    case Some(MarkVerified(_, _)) => PlainFiled(db, t);
    case Some(SetCanonical(g, _)) => SetCanonicalFiled(db, t, g);
    case Some(Create(origin, hash, version)) => CreateFiled(db, t, origin, hash, version);
    case Some(Leave(_)) =>
  }

  /** A canonical row lost again would come back as unfiled, but keeps its group. */
  lemma LostAgainUnfiled(db: Db, t: Transition, j: nat)
    requires PointersOk(db) && IsSound(db, t) && j < |t.others| && LosesAgain(t.others[j]) && Apply(db, t).Applied?
    ensures !FiledOk(Apply(db, t).db)
  {
    var o := t.others[j];
    var g := t.group.value.group;
    assert CasOk(db, t, o);
    assert PointerOk(db, g) && db.rows[o.id].group == Some(g);
    CasAllHit(CasUpdate(db.rows, t.main, t.now), t.others, t.now, j);
    var a := Apply(db, t);
    var mid := db.(rows := RowsAfter(db, t));
    CasAllKeys(CasUpdate(db.rows, t.main, t.now), t.others, t.now);
    GroupOpRow(mid, t.main.id, t.group.value, t.now, o.id);
    var r := a.db.rows[o.id];
    assert r.group == Some(g) && r.state.Missing? && r.prev == Some(o.from);
    assert !RowFiled(a.db.groups, r);
  }

  // ---------------------------------------------------------------- rounds

  /** The transition a round applies. */
  ghost function RoundTransition(c: Ctx, e: Env, db: Db, maxWait: int): Option<Transition> {
    match NextReady(db.rows, c.now, c.allowHeavy, maxWait)
    case None => None
    case Some(id) => Some(Decide(c, id, db.rows[id], Step(c, e, db, id)))
  }

  /** The round marks a row missing that is off disk already. */
  ghost predicate LosesOffDisk(c: Ctx, e: Env, db: Db, maxWait: int) {
    var t := RoundTransition(c, e, db, maxWait);
    t.Some? && !NoneLosesAgain(t.value)
  }

  /** A worker round keeps every member of a group under the group's key if and only if it loses nothing twice. */
  lemma RoundFiledIff(c: Ctx, e: Env, db: Db, maxWait: int)
    requires PointersOk(db) && FiledOk(db)
    ensures var r := Round(c, e, db, maxWait);
      r.Worked? ==> (FiledOk(r.db) <==> !LosesOffDisk(c, e, db, maxWait))
  {
    var t := RoundTransition(c, e, db, maxWait);
    if t.Some? {
      StepSound(c, e, db, NextReady(db.rows, c.now, c.allowHeavy, maxWait).value);
      if NoneLosesAgain(t.value) {
        ApplyFiled(db, t.value);
      } else if Apply(db, t.value).Applied? {
        var j :| 0 <= j < |t.value.others| && LosesAgain(t.value.others[j]);
        LostAgainUnfiled(db, t.value, j);
      }
    }
  }

  // ---------------------------------------------------------------- the other operations

  /** A row changed in place that stays in its group with its key, or leaves it. */
  ghost predicate FiledKept(r: Row, r': Row) {
    r'.group.None? || (&& r'.group == r.group && r'.domain == r.domain && r'.size == r.size && r'.sparse == r.sparse
                       && (Unfiled(r') ==> Unfiled(r)))
  }

  lemma RowsFiled(db: Db, db': Db)
    requires FiledOk(db) && GroupKept(db.groups, db'.groups)
    requires forall i :: i in db'.rows ==>
      db'.rows[i].group.None? || (i in db.rows && FiledKept(db.rows[i], db'.rows[i]))
    ensures FiledOk(db')
  {
    forall i | i in db'.rows && db'.rows[i].group.Some? ensures RowFiled(db'.groups, db'.rows[i]) {
      assert RowFiled(db.groups, db.rows[i]);
    }
  }

  lemma UpsertFiled(db: Db, seen: Identity, loc: FileLoc, readyAt: Ts, priority: nat, now: Ts, kind: RootKind)
    requires FiledOk(db)
    ensures FiledOk(Upsert(db, seen, loc, readyAt, priority, now, kind))
  {
    RowsFiled(db, Upsert(db, seen, loc, readyAt, priority, now, kind));
  }

  lemma {:induction false} ScanInsertFiled(db: Db, batch: seq<ScanRow>, now: Ts)
    requires FiledOk(db)
    ensures FiledOk(db.(rows := ScanInsert(db.rows, batch, now)))
    decreases |batch|
  {
    if batch != [] {
      var next := db.(rows := ScanInsertOne(db.rows, batch[0], now));
      RowsFiled(db, next);
      ScanInsertFiled(next, batch[1..], now);
    }
  }

  lemma MoveOpFiled(db: Db, op: Op)
    requires FiledOk(db) && (op.RenameFile? || op.RenameDir? || op.ExpirePresence?)
    ensures FiledOk(Perform(db, op))
  {
    RowsFiled(db, Perform(db, op));
  }

  lemma LoseOpFiled(db: Db, op: Op)
    requires FiledOk(db) && (op.LoseFile? || op.LoseDir? || op.FinishPresence?)
    ensures FiledOk(Perform(db, op))
  {
    RowsFiled(db, Perform(db, op));
  }

  lemma QueueOpFiled(db: Db, op: Op)
    requires FiledOk(db) && QueueOp(op)
    ensures FiledOk(Perform(db, op))
  {
    forall i | i in Perform(db, op).rows ensures FiledKept(db.rows[i], Perform(db, op).rows[i]) {
      if op.ClosePhaseB? || op.RequeueVerified? { assert RowFiled(db.groups, db.rows[i]); }
    }
    RowsFiled(db, Perform(db, op));
  }

  lemma PurgeFiled(db: Db, now: Ts, retention: int)
    requires FiledOk(db)
    ensures FiledOk(Purge(db, now, retention))
  {
    RowsFiled(db, Purge(db, now, retention));
  }

  lemma OperationFiled(db: Db, op: Op)
    requires PointersOk(db) && FiledOk(db)
    requires op.WorkerRound? ==> !LosesOffDisk(op.ctx, op.env, db, op.maxWait)
    ensures FiledOk(Perform(db, op))
  {
    match op
    case WorkerRound(c, e, maxWait) => RoundFiledIff(c, e, db, maxWait);
    case UpsertPending(seen, loc, readyAt, priority, now, kind) =>
      UpsertFiled(db, seen, loc, readyAt, priority, now, kind);
    case RestoreRow(key, seen, now, kind) =>
      var i := FindByKey(db.rows, key);
      if i.Some? { UpsertFiled(db, seen, db.rows[i.value].loc, now, db.rows[i.value].priority, now, kind); }
    case SeeFile(key, fp, loc, now, kind) =>
      var i := FindByKey(db.rows, key);
      if i.Some? {
        var r := db.rows[i.value];
        var seen := Identity(key, r.domain, fp.size, fp.mtime, fp.ctime, r.nlink, r.uid, r.mode);
        UpsertFiled(db, seen, loc, now, r.priority, now, kind);
      }
    case InsertBatch(batch, now) => ScanInsertFiled(db, batch, now);
    case PurgeGone(now, retention) => PurgeFiled(db, now, retention);
    case _ =>
      if QueueOp(op) { QueueOpFiled(db, op); }
      else if op.LoseFile? || op.LoseDir? || op.FinishPresence? { LoseOpFiled(db, op); }
      else { MoveOpFiled(db, op); }
  }

  /** No round of the run loses a row twice. */
  ghost predicate LosesNothingTwice(db: Db, ops: seq<Op>)
    decreases |ops|
  {
    ops == [] || (&& (ops[0].WorkerRound? ==> !LosesOffDisk(ops[0].ctx, ops[0].env, db, ops[0].maxWait))
                  && LosesNothingTwice(Perform(db, ops[0]), ops[1..]))
  }

  /** Over any interleaving in which no round loses a row twice, every member of a group carries its key. */
  lemma {:induction false} MembersCarryTheKey(db: Db, ops: seq<Op>)
    requires PointersOk(db) && FiledOk(db) && LosesNothingTwice(db, ops)
    ensures FiledOk(Run(db, ops))
    decreases |ops|
  {
    if ops != [] {
      OperationKept(db, ops[0]);
      OperationFiled(db, ops[0]);
      MembersCarryTheKey(Perform(db, ops[0]), ops[1..]);
    }
  }

  /** Then verification never meets two files of different sizes: its alarm for that stays silent. */
  lemma SizesAgree(c: Ctx, e: Env, db: Db, id: RowId, k: RowId, g: GroupId, a: Opened, b: Opened)
    requires FiledOk(db) && id in db.rows && db.rows[id].group == Some(g) && g in db.groups
             && CanonicalMember(db, g) == Some(k)
    ensures k in db.rows && db.rows[k].domain == db.rows[id].domain && db.rows[k].size == db.rows[id].size
      && db.rows[k].sparse == db.rows[id].sparse
    ensures VerifyOpened(c, e, db, id, k, g, a, b) != GiveUpOn(c, id, "sizes differ")
  {
    assert RowFiled(db.groups, db.rows[k]) && RowFiled(db.groups, db.rows[id]);
  }

  // ---------------------------------------------------------------- when a round loses a row twice

  /** The row waits to be compared with a canonical file that is off disk already, and is indeed not found. */
  ghost predicate Orphaned(c: Ctx, e: Env, db: Db, id: RowId) {
    && id in db.rows && db.rows[id].state.Hashed? && c.allowHeavy
    && !(c.verifyMaxSize > 0 && db.rows[id].size > c.verifyMaxSize)
    && db.rows[id].group.Some? && db.rows[id].group.value in db.groups
    && var k := CanonicalMember(db, db.rows[id].group.value);
       k.Some? && k.value != id && db.rows[k.value].state.OffDisk() && e.open(db.rows[k.value].loc) == Err(NotFound)
  }

  /** Among hashed rows, exactly an orphaned one makes its step lose a row twice. */
  lemma VerifyLosesIff(c: Ctx, e: Env, db: Db, id: RowId)
    requires id in db.rows && db.rows[id].state.Hashed?
    ensures NoneLosesAgain(Decide(c, id, db.rows[id], VerifyStep(c, e, db, id))) <==> !Orphaned(c, e, db, id)
  {
    var r := db.rows[id];
    var t := Decide(c, id, r, VerifyStep(c, e, db, id));
    if r.group.Some? && r.group.value in db.groups && CanonicalMember(db, r.group.value).Some? {
      var g, k := r.group.value, CanonicalMember(db, r.group.value).value;
      PairLosesIff(c, e, db, id, k, g);
    }
    if Orphaned(c, e, db, id) { assert LosesAgain(t.others[0]); }
  }

  lemma PairLosesIff(c: Ctx, e: Env, db: Db, id: RowId, k: RowId, g: GroupId)
    requires id in db.rows && db.rows[id].state.Hashed? && k in db.rows
    ensures NoneLosesAgain(Decide(c, id, db.rows[id], VerifyPair(c, e, db, id, k, g)))
            <==> !(db.rows[k].state.OffDisk() && e.open(db.rows[k].loc) == Err(NotFound))
  {
    var s := VerifyPair(c, e, db, id, k, g);
    match e.open(db.rows[k].loc)
    case Err(NotFound) => assert LosesAgain(s.value.t.others[0]) <==> db.rows[k].state.OffDisk();
    case Err(OtherFs(_)) =>
    case Ok(a) =>
      match OpenDest(c, e, db.rows[id].loc)
      case Err(_) =>
      case Ok(b) => OpenedLosesNothing(c, e, db, id, k, g, a, b);
  }

  lemma OpenedLosesNothing(c: Ctx, e: Env, db: Db, id: RowId, k: RowId, g: GroupId, a: Opened, b: Opened)
    requires id in db.rows && db.rows[id].state.Hashed? && k in db.rows
    ensures NoneLosesAgain(Decide(c, id, db.rows[id], VerifyOpened(c, e, db, id, k, g, a, b)))
  {
  }

  lemma SoloLosesNothing(c: Ctx, db: Db, id: RowId, s: Stepped)
    requires id in db.rows && Solo(c, db, id, s)
    ensures NoneLosesAgain(Decide(c, id, db.rows[id], s))
  {
  }

  /** The rows that a settling or sized row's step takes along are on disk. */
  lemma OthersLoseNothing(c: Ctx, e: Env, db: Db, id: RowId)
    requires id in db.rows && (db.rows[id].state.Settling? || db.rows[id].state.Sized?)
    ensures NoneLosesAgain(Decide(c, id, db.rows[id], Step(c, e, db, id)))
  {
    if db.rows[id].state.Settling? {
      SettleSolo(c, e, db, id);
      SoloLosesNothing(c, db, id, SettleStep(c, e, id, db.rows[id]));
    } else {
      SizedLosesNothing(c, e, db, id);
    }
  }

  lemma SizedLosesNothing(c: Ctx, e: Env, db: Db, id: RowId)
    requires id in db.rows && db.rows[id].state.Sized?
    ensures NoneLosesAgain(Decide(c, id, db.rows[id], SizedStep(c, e, db, id)))
  {
    match db.rows[id].sparse
    case None =>
      HashSolo(c, e, db, id);
      SoloLosesNothing(c, db, id, ComputeHash(c, e, id, db.rows[id]));
    case Some(h) => PlaceLosesNothing(c, e, db, id, h);
  }

  lemma OutOfRoleLosesNothing(t: Transition)
    requires OutOfRole(t)
    ensures NoneLosesAgain(t)
  {
  }

  /** Among candidates a step creates a group or none is concerned, so the rows beside it are out of the role. */
  lemma CandidatesLoseNothing(c: Ctx, e: Env, db: Db, id: RowId, h: Hash, cands: seq<RowId>)
    requires Peers(db, id, cands) && db.rows[id].sparse == Some(h)
    ensures NoneLosesAgain(Decide(c, id, db.rows[id], AmongCandidates(c, e, db, id, h, cands)))
  {
    var s := AmongCandidates(c, e, db, id, h, cands);
    var t := Decide(c, id, db.rows[id], s);
    AmongCandidatesSound(c, e, db, id, h, cands);
    assert t.group.None? || t.group.value.Create?;
    OutOfRoleLosesNothing(t);
  }

  lemma PlaceLosesNothing(c: Ctx, e: Env, db: Db, id: RowId, h: Hash)
    requires id in db.rows && db.rows[id].state.Sized? && db.rows[id].sparse == Some(h)
    ensures NoneLosesAgain(Decide(c, id, db.rows[id], PlaceInGroup(c, e, db, id, h)))
  {
    var r := db.rows[id];
    if FirstGroup(db, r.domain, r.size, h).Some? {
      assert Decide(c, id, r, PlaceInGroup(c, e, db, id, h)).others == [];
    } else if StillSettling(c, db, id).None? {
      CandidatesLoseNothing(c, e, db, id, h, SettledPeers(c, db, id));
    }
  }

  /** So a round keeps every member under its group's key if and only if the row it takes is not orphaned. */
  lemma RoundFiledIffNotOrphaned(c: Ctx, e: Env, db: Db, maxWait: int)
    requires PointersOk(db) && FiledOk(db)
    ensures var r := Round(c, e, db, maxWait);
      r.Worked? ==> (FiledOk(r.db) <==> !Orphaned(c, e, db, NextReady(db.rows, c.now, c.allowHeavy, maxWait).value))
  {
    RoundFiledIff(c, e, db, maxWait);
    var next := NextReady(db.rows, c.now, c.allowHeavy, maxWait);
    if next.Some? {
      if db.rows[next.value].state.Hashed? { VerifyLosesIff(c, e, db, next.value); }
      else { OthersLoseNothing(c, e, db, next.value); }
    }
  }
}
