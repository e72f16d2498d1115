/**
 * The table of transitions, and what a worker round really does: every pair of states that a round's
 * own row or a row beside it can go through, and which of them the table does not list.
 */
module StateTable {
  import opened Wrappers
  import opened Model
  import opened Selection
  import opened StoreSpec
  import opened OpsSpec
  import opened Rules
  import opened Pipeline
  import opened Operations
  import opened Sound
  import opened Canonical
  import opened Reachable
  import opened Filed
  import opened MarkedTables

  /** The pairs of states that the source's table lists. */
  predicate Listed(from: State, to: State) {
    match from
    case Settling => to.Sized? || to.Skipped? || to.Missing?
    case Sized => to.Skipped? || to.Distinct? || to.Hashed? || to.Canonical? || to.Settling? || to.Missing?
    case Hashed =>
      || to.Deduped? || to.Verified? || to.Hashed? || to.Canonical? || to.Skipped? || to.Failed?
      || to.Settling? || to.Missing?
    case Verified => to.Hashed? || to.Settling? || to.Missing?
    case Distinct => to.Canonical? || to.Settling? || to.Missing?
    case Deduped => to.Canonical? || to.Skipped? || to.Settling? || to.Missing?
    case Canonical => to.Skipped? || to.Settling? || to.Missing?
    case Skipped => to.Settling? || to.Missing?
    case Failed => to.Settling? || to.Missing?
    case Missing => !to.Missing?
    case Gone => false
  }

  /** A missing row returns to where it was if the table lists the way, and settles otherwise. */
  lemma RestoreFollowsTable(prev: Option<State>)
    ensures RestoreTarget(prev)
            == if prev.Some? && !prev.value.OffDisk() && Listed(Missing, prev.value) then prev.value else Settling
  {
  }

  /** The pairs a round can go through. */
  predicate RoundPair(from: State, to: State) {
    match from
    case Settling => to.Settling? || to.Sized? || to.Skipped? || to.Missing? || to.Failed?
    case Sized => !to.Verified? && !to.Deduped? && !to.Gone?
    case Hashed => !to.Distinct? && !to.Gone?
    case Distinct => to.Distinct? || to.Missing? || to.Settling? || to.Skipped? || to.Canonical? || to.Hashed?
    case Canonical => to.Missing? || to.Settling?
    case Missing => to.Missing? || to.Settling?
    case Gone => to.Missing? || to.Settling?
    case _ => false
  }

  ghost predicate InRoundPairs(t: Transition) {
    RoundPair(t.main.from, t.main.to) && forall j :: 0 <= j < |t.others| ==> RoundPair(t.others[j].from, t.others[j].to)
  }

  // ---------------------------------------------------------------- no other pairs

  lemma SettlePairs(c: Ctx, e: Env, id: RowId, r: Row)
    requires r.state.Settling?
    ensures InRoundPairs(Decide(c, id, r, SettleStep(c, e, id, r)))
  {
  }

  lemma HashPairs(c: Ctx, e: Env, id: RowId, r: Row)
    requires r.state.Sized?
    ensures InRoundPairs(Decide(c, id, r, ComputeHash(c, e, id, r)))
  {
  }

  lemma BackfillPairs(c: Ctx, e: Env, db: Db, id: RowId, k: RowId)
    requires id in db.rows && db.rows[id].state.Sized? && k in db.rows
             && (db.rows[k].state.Sized? || db.rows[k].state.Distinct?)
    ensures InRoundPairs(Decide(c, id, db.rows[id], Backfill(c, e, db, id, k)))
  {
  }

  lemma GroupPairs(c: Ctx, db: Db, id: RowId, twins: seq<RowId>, h: Hash)
    requires Peers(db, id, twins)
    ensures InRoundPairs(MakeGroup(c, db, id, twins, h).value.t)
  {
    var t := MakeGroup(c, db, id, twins, h).value.t;
    forall j | 0 <= j < |t.others| ensures RoundPair(t.others[j].from, t.others[j].to) {
      assert twins[j] in twins && t.others[j] == TwinMove(c, db.rows, t.group.value.canonical, twins[j]);
    }
  }

  lemma CandidatePairs(c: Ctx, e: Env, db: Db, id: RowId, h: Hash, cands: seq<RowId>)
    requires Peers(db, id, cands)
    ensures InRoundPairs(Decide(c, id, db.rows[id], AmongCandidates(c, e, db, id, h, cands)))
  {
    match FirstUnhashed(db.rows, cands)
    case Some(k) => if c.allowHeavy { BackfillPairs(c, e, db, id, k); }
    case None =>
      var twins := WithHash(db.rows, cands, h);
      if twins != [] { GroupPairs(c, db, id, twins, h); }
  }

  lemma PlacePairs(c: Ctx, e: Env, db: Db, id: RowId, h: Hash)
    requires id in db.rows && db.rows[id].state.Sized?
    ensures InRoundPairs(Decide(c, id, db.rows[id], PlaceInGroup(c, e, db, id, h)))
  {
    if FirstGroup(db, db.rows[id].domain, db.rows[id].size, h).None? && StillSettling(c, db, id).None? {
      CandidatePairs(c, e, db, id, h, SettledPeers(c, db, id));
    }
  }

  lemma SizedPairs(c: Ctx, e: Env, db: Db, id: RowId)
    requires id in db.rows && db.rows[id].state.Sized?
    ensures InRoundPairs(Decide(c, id, db.rows[id], SizedStep(c, e, db, id)))
  {
    match db.rows[id].sparse
    case None => HashPairs(c, e, id, db.rows[id]);
    case Some(h) => PlacePairs(c, e, db, id, h);
  }

  lemma ComparedPairs(c: Ctx, e: Env, db: Db, id: RowId, g: GroupId, a: Opened, b: Opened)
    requires id in db.rows && db.rows[id].state.Hashed?
    ensures InRoundPairs(Decide(c, id, db.rows[id], Compared(c, e, db, id, g, a, b)))
  {
  }

  /** A group's canonical member is in the role, or off disk. */
  lemma VerifyPairPairs(c: Ctx, e: Env, db: Db, id: RowId, k: RowId, g: GroupId)
    requires id in db.rows && db.rows[id].state.Hashed? && k in db.rows
    requires db.rows[k].state.Canonical? || db.rows[k].state.OffDisk()
    ensures InRoundPairs(Decide(c, id, db.rows[id], VerifyPair(c, e, db, id, k, g)))
  {
    match e.open(db.rows[k].loc)
    case Err(_) =>
    case Ok(a) =>
      match OpenDest(c, e, db.rows[id].loc)
      case Err(_) =>
      case Ok(b) => ComparedPairs(c, e, db, id, g, a, b);
  }

  lemma VerifyPairs(c: Ctx, e: Env, db: Db, id: RowId)
    requires PointersOk(db) && id in db.rows && db.rows[id].state.Hashed?
    ensures InRoundPairs(Decide(c, id, db.rows[id], VerifyStep(c, e, db, id)))
  {
    var r := db.rows[id];
    if r.group.Some? && r.group.value in db.groups && CanonicalMember(db, r.group.value).Some? {
      assert PointerOk(db, r.group.value);
      VerifyPairPairs(c, e, db, id, CanonicalMember(db, r.group.value).value, r.group.value);
    }
  }

  lemma RoundsStayInPairs(c: Ctx, e: Env, db: Db, maxWait: int)
    requires PointersOk(db)
    ensures var t := RoundTransition(c, e, db, maxWait); t.Some? ==> InRoundPairs(t.value)
  {
    var next := NextReady(db.rows, c.now, c.allowHeavy, maxWait);
    if next.Some? {
      match db.rows[next.value].state
      case Settling => SettlePairs(c, e, next.value, db.rows[next.value]);
      case Sized => SizedPairs(c, e, db, next.value);
      case Hashed => VerifyPairs(c, e, db, next.value);
    }
  }

  // ---------------------------------------------------------------- the pairs outside the table

  /** Some round on well-formed tables takes its own row, or a row beside it, from one state to the other. */
  ghost predicate Occurs(from: State, to: State) {
    exists c, e, db, maxWait :: WellFormed(db) && Takes(c, e, db, maxWait, from, to)
  }

  ghost predicate Takes(c: Ctx, e: Env, db: Db, maxWait: int, from: State, to: State) {
    var t := RoundTransition(c, e, db, maxWait);
    t.Some? && Goes(t.value, from, to)
  }

  ghost predicate Goes(t: Transition, from: State, to: State) {
    || (t.main.from == from && t.main.to == to)
    || exists j :: 0 <= j < |t.others| && t.others[j].from == from && t.others[j].to == to
  }

  lemma GoesInPairs(t: Transition, from: State, to: State)
    requires InRoundPairs(t) && Goes(t, from, to)
    ensures RoundPair(from, to)
  {
  }

  lemma TakesInPairs(c: Ctx, e: Env, db: Db, maxWait: int, from: State, to: State)
    requires PointersOk(db) && Takes(c, e, db, maxWait, from, to)
    ensures RoundPair(from, to)
  {
    RoundsStayInPairs(c, e, db, maxWait);
    GoesInPairs(RoundTransition(c, e, db, maxWait).value, from, to);
  }

  /**
   * What the table does not list: rounds that leave the state alone or give up, and moves of rows beside the
   * acting one.
   */
  predicate Unlisted(from: State, to: State) {
    || (from.Settling? && (to.Settling? || to.Failed?))
    || (from.Sized? && (to.Sized? || to.Failed?))
    || (from.Hashed? && to.Sized?)
    || (from.Distinct? && (to.Distinct? || to.Hashed? || to.Skipped?))
    || (from.Missing? && to.Missing?)
    || (from.Gone? && (to.Missing? || to.Settling?))
  }

  function Broken(): Env {
    Env(l => Err(OtherFs("")), l => Err(OtherFs("")), l => Err(OtherFs("")), (a, b, n) => Err(Busy))
  }

  lemma Sole(r: Row)
    requires IsDue(r, NOW, true, 0)
    ensures NextReady(map[Id(1) := r], NOW, true, 0) == Some(Id(1))
  {
    NextReadyIs(map[Id(1) := r], Id(1), NOW, true, 0);
  }

  lemma Fails(s: State, attempts: nat)
    requires s.Settling? || s.Sized?
    ensures Occurs(s, if attempts + 1 >= MAX_ATTEMPTS then Failed else s)
  {
    var r := Fresh(1, 10).(state := s, attempts := attempts);
    var db := Db(map[Id(1) := r], map[]);
    Sole(r);
    assert WellFormed(db);
    assert Takes(CTX, Broken(), db, 0, s, if attempts + 1 >= MAX_ATTEMPTS then Failed else s);
  }

  const GROUP := Group(0, 10, H, HASH_VERSION, None, None, None, NOW)

  /** A twin that was no origin waits without a group. */
  lemma HashedIsSized()
    ensures Occurs(Hashed, Sized)
  {
    var r := Fresh(1, 10).(state := Hashed, sparse := Some(H));
    var db := Db(map[Id(1) := r], map[Id(1) := GROUP]);
    Sole(r);
    assert Id(1) in GroupsByKey(db, 0, 10, H);
    assert WellFormed(db);
    assert Takes(CTX, Broken(), db, 0, Hashed, Sized);
  }

  const SEEKER := Mark(Sized, None, true, 10, Some(H), None)
  const PARKED := Mark(Distinct, None, false, 10, None, None)

  function RowOf(i: nat, m: Mark): Row {
    Fresh(i, m.size).(state := m.state, prev := m.prev, readyAt := if m.waits then Some(NOW) else None,
                      sparse := m.hash, group := m.group)
  }

  /** Rows 1 and 2. */
  function TwoOf(m: Mark, n: Mark, groups: map<GroupId, Group>): Db {
    Db(map[Id(1) := RowOf(1, m), Id(2) := RowOf(2, n)], groups)
  }

  lemma TwoOfTable(m: Mark, n: Mark)
    requires m.group.None? && n.group.None?
    requires (m.state.Sized? || m.state.Distinct?) && (n.state.Sized? || n.state.Distinct?)
    ensures Table(TwoOf(m, n, map[]), [m, n], []) && WellFormed(TwoOf(m, n, map[]))
  {
    var db := TwoOf(m, n, map[]);
    forall k | k in db.rows ensures Is(db.rows[k], k.n, [m, n][k.n - 1]) { assert k == Id(1) || k == Id(2); }
  }

  /** File 2 with more names than one or only one. */
  function Linked(nlink: nat): Env {
    Still([10, 10]).(open := l => Ok(File(2, 10).(identity := Ident(2, 10).(nlink := nlink))))
  }

  /** An unhashed distinct file of the same size is read, and stays so or turns out to have other names. */
  lemma CandidateIsRead(nlink: nat)
    ensures Occurs(Distinct, if nlink > 1 then Skipped else Distinct)
  {
    var db, e := TwoOf(SEEKER, PARKED, map[]), Linked(nlink);
    var ms := [SEEKER, PARKED];
    TwoOfTable(SEEKER, PARKED);
    assert FirstDue(ms, 1) && Meets(ms, [], 1, 2, [10, 10]);
    MeetsPair(db, ms, [], 1, 2, [10, 10]);
    PairStep(e, db, 1, 2, SEEKER, PARKED);
    BackfillsParked(db, e, nlink);
    var t := RoundTransition(CTX, e, db, 0).value;
    assert t.others[0].from == Distinct && t.others[0].to == if nlink > 1 then Skipped else Distinct;
    assert Takes(CTX, e, db, 0, Distinct, if nlink > 1 then Skipped else Distinct);
  }

  lemma BackfillsParked(db: Db, e: Env, nlink: nat)
    requires Id(1) in db.rows && Id(2) in db.rows && db.rows[Id(2)] == RowOf(2, PARKED) && e == Linked(nlink)
    ensures var s := AmongCandidates(CTX, e, db, Id(1), H, [Id(2)]);
      s.Ok? && s.value.Commit? && |s.value.t.others| == 1 && s.value.t.others[0].from == Distinct
      && s.value.t.others[0].to == if nlink > 1 then Skipped else Distinct
  {
    assert FirstUnhashed(db.rows, [Id(2)]) == Some(Id(2));
  }

  /** The twin of an older sized file waits for comparison. */
  lemma TwinIsHashed()
    ensures Occurs(Distinct, Hashed)
  {
    var twin := PARKED.(hash := Some(H));
    var db, ms := TwoOf(twin, SEEKER, map[]), [twin, SEEKER];
    TwoOfTable(twin, SEEKER);
    assert FirstDue(ms, 2) && Meets(ms, [], 2, 1, [10, 10]);
    MeetsPair(db, ms, [], 2, 1, [10, 10]);
    PairStep(Still([10, 10]), db, 2, 1, SEEKER, twin);
    TwinsFound(Still([10, 10]), db, 2, 1, SEEKER, twin);
    assert Founding(db, 2, 1).others[0] == Cas(Id(1), Distinct, Hashed, Ready(Some(NOW)));
    assert Takes(CTX, Still([10, 10]), db, 0, Distinct, Hashed);
  }

  const COMPARED := Mark(Hashed, None, true, 10, Some(H), Some(Id(1)))

  /** A row waits to be compared with a canonical file that is off disk. */
  function Waiting(s: State): Db {
    TwoOf(COMPARED, Mark(s, Some(Canonical), false, 10, Some(H), Some(Id(1))),
          map[Id(1) := GROUP.(canonical := Some(Id(2)))])
  }

  lemma WaitingOk(s: State)
    requires s.OffDisk()
    ensures WellFormed(Waiting(s)) && NextReady(Waiting(s).rows, NOW, true, 0) == Some(Id(1))
  {
    assert Id(1) in GroupsByKey(Waiting(s), 0, 10, H);
    NextReadyIs(Waiting(s).rows, Id(1), NOW, true, 0);
  }

  lemma WaitingStep(s: State, found: bool)
    requires s.OffDisk()
    ensures var r := VerifyStep(CTX, Still([10, if found then 20 else 0]), Waiting(s), Id(1));
      r.Ok? && r.value.Commit? && |r.value.t.others| == 1 && r.value.t.others[0].from == s
      && r.value.t.others[0].to == if found then Settling else Missing
  {
    assert CanonicalMember(Waiting(s), Id(1)) == Some(Id(2));
  }

  /** The canonical file is off disk, and is not found or has changed. */
  lemma CanonicalOffDisk(s: State, found: bool)
    requires s.OffDisk()
    ensures Occurs(s, if found then Settling else Missing)
  {
    var e, to := Still([10, if found then 20 else 0]), if found then Settling else Missing;
    WaitingOk(s);
    WaitingStep(s, found);
    var t := RoundTransition(CTX, e, Waiting(s), 0).value;
    assert t.others[0].from == s && t.others[0].to == to;
    assert Takes(CTX, e, Waiting(s), 0, s, to);
  }

  /** What occurs in a round is one of its pairs. */
  lemma OccursInPairs(from: State, to: State)
    requires Occurs(from, to)
    ensures RoundPair(from, to)
  {
    var c, e, db, maxWait :| WellFormed(db) && Takes(c, e, db, maxWait, from, to);
    TakesInPairs(c, e, db, maxWait, from, to);
  }

  lemma UnlistedOccur(from: State, to: State)
    requires Unlisted(from, to)
    ensures Occurs(from, to)
  {
    match from
    case Settling => Fails(Settling, if to.Failed? then 7 else 0);
    case Sized => Fails(Sized, if to.Failed? then 7 else 0);
    case Hashed => HashedIsSized();
    case Distinct => if to.Hashed? { TwinIsHashed(); } else { CandidateIsRead(if to.Skipped? then 2 else 1); }
    case Missing => CanonicalOffDisk(Missing, false);
    case Gone => CanonicalOffDisk(Gone, to.Settling?);
  }

  lemma UnlistedIsRest(from: State, to: State)
    ensures Unlisted(from, to) <==> RoundPair(from, to) && !Listed(from, to)
  {
  }

  /** Of all pairs of states, exactly these occur in rounds and are not in the table. */
  lemma UnlistedPairs(from: State, to: State)
    ensures Occurs(from, to) && !Listed(from, to) <==> Unlisted(from, to)
  {
    UnlistedIsRest(from, to);
    if Unlisted(from, to) { UnlistedOccur(from, to); }
    else if Occurs(from, to) { OccursInPairs(from, to); }
  }

  // ---------------------------------------------------------------- the other operations

  /** A row keeps its state, moves as the table lists, or settles although it was gone. */
  predicate ListedMove(r: Row, r': Row) {
    r'.state == r.state || Listed(r.state, r'.state) || (r.state.Gone? && r'.state.Settling?)
  }

  lemma ReseenListed(r: Row, seen: Identity, loc: FileLoc, readyAt: Ts, priority: nat, now: Ts, kind: RootKind)
    ensures ListedMove(r, Reseen(r, seen, loc, readyAt, priority, now, kind))
  {
  }

  lemma UpsertListed(db: Db, seen: Identity, loc: FileLoc, readyAt: Ts, priority: nat, now: Ts, kind: RootKind,
                     i: RowId)
    requires i in db.rows
    ensures var db' := Upsert(db, seen, loc, readyAt, priority, now, kind);
      i in db'.rows && ListedMove(db.rows[i], db'.rows[i])
  {
    ReseenListed(db.rows[i], seen, loc, readyAt, priority, now, kind);
  }

  lemma {:induction false} InsertListed(rows: map<RowId, Row>, batch: seq<ScanRow>, now: Ts, i: RowId)
    requires i in rows
    ensures i in ScanInsert(rows, batch, now) && ScanInsert(rows, batch, now)[i] == rows[i]
    decreases |batch|
  {
    if batch != [] { InsertListed(ScanInsertOne(rows, batch[0], now), batch[1..], now, i); }
  }

  lemma QueueOpListed(db: Db, op: Op, i: RowId)
    requires QueueOp(op) && i in db.rows
    ensures i in Perform(db, op).rows && ListedMove(db.rows[i], Perform(db, op).rows[i])
  {
  }

  lemma PlaceOpListed(db: Db, op: Op, i: RowId)
    requires PlaceOp(op) && i in db.rows
    ensures i in Perform(db, op).rows && ListedMove(db.rows[i], Perform(db, op).rows[i])
  {
  }

  /** The operations that see one file again. */
  ghost predicate SightOp(op: Op) {
    op.UpsertPending? || op.RestoreRow? || op.SeeFile?
  }

  lemma SightOpListed(db: Db, op: Op, i: RowId)
    requires SightOp(op) && i in db.rows
    ensures i in Perform(db, op).rows && ListedMove(db.rows[i], Perform(db, op).rows[i])
  {
    match op
    case UpsertPending(seen, loc, readyAt, priority, now, kind) =>
      UpsertListed(db, seen, loc, readyAt, priority, now, kind, i);
    case RestoreRow(key, seen, now, kind) =>
      var f := FindByKey(db.rows, key);
      if f.Some? { UpsertListed(db, seen, db.rows[f.value].loc, now, db.rows[f.value].priority, now, kind, i); }
    case SeeFile(key, fp, loc, now, kind) =>
      var f := FindByKey(db.rows, key);
      if f.Some? {
        var r := db.rows[f.value];
        var seen := Identity(key, r.domain, fp.size, fp.mtime, fp.ctime, r.nlink, r.uid, r.mode);
        UpsertListed(db, seen, loc, now, r.priority, now, kind, i);
      }
  }

  /** Outside rounds, only a gone row that an upsert sees changed moves as the table does not list. */
  lemma OtherOperationsListed(db: Db, op: Op, i: RowId)
    requires !op.WorkerRound? && i in db.rows && i in Perform(db, op).rows
    ensures ListedMove(db.rows[i], Perform(db, op).rows[i])
  {
    if SightOp(op) { SightOpListed(db, op, i); }
    else if QueueOp(op) { QueueOpListed(db, op, i); }
    else if PlaceOp(op) { PlaceOpListed(db, op, i); }
    else if op.InsertBatch? { InsertListed(db.rows, op.batch, op.now, i); }
  }

  /** Such a row exists: it settles again. */
  lemma GoneSettles(r: Row, seen: Identity, loc: FileLoc, readyAt: Ts, priority: nat, now: Ts, kind: RootKind)
    requires r.state.Gone?
    ensures Reseen(r, seen, loc, readyAt, priority, now, kind).state.Settling?
            <==> r.skipReason != Some(UserUndo) && !r.Print().Matches(seen.Print(), kind)
  {
  }
}
