/**
 * The transitions the pipeline decides on, as far as groups are concerned: what a
 * round may do to its own row, to the rows beside it and to a group's pointer.
 */
module Sound {
  import opened Wrappers
  import opened Model
  import opened Selection
  import opened StoreSpec
  import opened Pipeline
  import opened Grouping

  ghost predicate CasRefOk(groups: map<GroupId, Group>, c: Cas) {
    c.patch.group.Put? && c.patch.group.v.Some? ==> c.patch.group.v.value in groups
  }

  /** A row that comes to rely on a group has one already, or the transition creates it. */
  ghost predicate GroupedAfter(db: Db, t: Transition, c: Cas)
    requires CasHolds(db.rows, c) && CasHolds(db.rows, t.main)
  {
    var r, m := PatchRow(db.rows[c.id], c, t.now), PatchRow(db.rows[t.main.id], t.main, t.now);
    NeedsGroup(r) ==>
      || Grouped(db, r)
      || (t.group.Some? && t.group.value.Create?
          && r.sparse == Some(t.group.value.hash) && r.domain == m.domain && r.size == m.size)
  }

  ghost predicate CasOk(db: Db, t: Transition, c: Cas)
    requires CasHolds(db.rows, c) && CasHolds(db.rows, t.main)
  {
    && CasRefOk(db.groups, c)
    && c.patch.skipReason != Put(Some(UserUndo))
    && (c.to.Verified? || c.to.Deduped? ==> t.group.Some? && t.group.value.MarkVerified?)
    && (c.to.Missing? ==> c.patch.prev == Put(Some(c.from)) && c.patch.identity.Keep? && c.patch.group.Keep?)
    && (HashedOk(db) ==> GroupedAfter(db, t, c))
    && (FiledOk(db) && !LosesAgain(c) ==> RowFiled(db.groups, PatchRow(db.rows[c.id], c, t.now)))
  }

  /** A row that is off disk already is marked missing once more, and forgets what it was. */
  predicate LosesAgain(c: Cas) {
    c.to.Missing? && c.from.OffDisk()
  }

  /** The row that gets the group `key` stands for has that key. */
  ghost predicate Fits(r: Row, domain: nat, size: nat, hash: Hash) {
    r.domain == domain && r.size == size && r.sparse == Some(hash) && !Unfiled(r)
  }

  ghost predicate CreatesFiled(db: Db, t: Transition, origin: RowId, hash: Hash)
    requires Steady(db, t)
  {
    var m := PatchRow(db.rows[t.main.id], t.main, t.now);
    && Fits(m, m.domain, m.size, hash)
    && forall j :: 0 <= j < |t.others| && t.others[j].id == origin ==>
         Fits(PatchRow(db.rows[origin], t.others[j], t.now), m.domain, m.size, hash)
  }

  /** Compare-and-sets that hold, each on its own row, in states outside the role. */
  ghost predicate Steady(db: Db, t: Transition) {
    && CasHolds(db.rows, t.main) && t.main.from.Queued() && CasOk(db, t, t.main)
    && DistinctIds(t.others)
    && forall j :: 0 <= j < |t.others| ==>
         t.others[j].id != t.main.id && CasHolds(db.rows, t.others[j]) && CasOk(db, t, t.others[j])
  }

  ghost predicate OutOfRole(t: Transition) {
    forall j :: 0 <= j < |t.others| ==> t.others[j].from.Sized? || t.others[j].from.Distinct?
  }

  /** What the pipeline's decisions look like to the groups. */
  ghost predicate IsSound(db: Db, t: Transition) {
    Steady(db, t) &&
    match t.group
    case None => OutOfRole(t)
    case Some(MarkVerified(g, _)) => t.others == [] && g in db.groups
    case Some(SetCanonical(g, file)) =>
      && file == t.main.id && t.main.to.Canonical? && g in db.groups
      && (t.others == [] || (|t.others| == 1 && db.groups[g].canonical == Some(t.others[0].id)))
      && (FiledOk(db) ==> Fits(PatchRow(db.rows[t.main.id], t.main, t.now), db.groups[g].domain, db.groups[g].size,
                               db.groups[g].hash))
    case Some(Create(origin, hash, _)) =>
      && OutOfRole(t)
      && (FiledOk(db) ==> CreatesFiled(db, t, origin, hash))
      && (|| (origin == t.main.id && t.main.to.Canonical?)
          || exists j :: 0 <= j < |t.others| && t.others[j].id == origin && t.others[j].to.Canonical?)
    case Some(Leave(g)) => g !in db.groups && db.rows[t.main.id].group == Some(g)
    case Some(Join(_)) => false
  }

  // ---------------------------------------------------------------- every decision is sound

  ghost predicate SoundStep(c: Ctx, db: Db, id: RowId, s: Stepped)
    requires id in db.rows
  {
    var t := Decide(c, id, db.rows[id], s);
    t.main.id == id && IsSound(db, t)
  }

  /** A step that leaves every other row and every group alone. */
  ghost predicate Solo(c: Ctx, db: Db, id: RowId, s: Stepped)
    requires id in db.rows
  {
    s.Ok? && s.value.Commit? ==>
      var t := s.value.t;
      && t == Transition(t.main, c.now, None, []) && t.main.id == id && t.main.from == db.rows[id].state
      && db.rows[id].state.Queued()
      && CasOk(db, t, t.main)
  }

  lemma SoloSound(c: Ctx, db: Db, id: RowId, s: Stepped)
    requires id in db.rows && db.rows[id].state.Queued() && Solo(c, db, id, s)
    ensures SoundStep(c, db, id, s)
  {
  }

  lemma SettleSolo(c: Ctx, e: Env, db: Db, id: RowId)
    requires id in db.rows && db.rows[id].state.Settling?
    ensures Solo(c, db, id, SettleStep(c, e, id, db.rows[id]))
  {
  }

  lemma HashSolo(c: Ctx, e: Env, db: Db, id: RowId)
    requires id in db.rows && db.rows[id].state.Sized?
    ensures Solo(c, db, id, ComputeHash(c, e, id, db.rows[id]))
  {
  }

  /** A hashed row that stays, fails, or starts over without its group. */
  ghost predicate HashedMove(to: State, p: Patch) {
    && p.skipReason != Put(Some(UserUndo)) && p.identity.Keep?
    && (|| ((to.Hashed? || to.Failed?) && p.group.Keep? && p.sparse.Keep?)
        || ((to.Settling? || to.Sized?) && p.group == Put(None)))
  }

  lemma HashedMoveSolo(c: Ctx, db: Db, id: RowId, to: State, p: Patch)
    requires id in db.rows && db.rows[id].state.Hashed? && HashedMove(to, p)
    ensures Solo(c, db, id, Move(id, Hashed, to, p, c.now))
  {
  }

  lemma ErrorShape(c: Ctx, id: RowId, r: Row, err: DedupeError)
    ensures var s := OnDedupeError(c, id, r, err);
      || s.value.Defer?
      || (s.value.Commit? && HashedMove(s.value.t.main.to, s.value.t.main.patch)
          && s == Move(id, Hashed, s.value.t.main.to, s.value.t.main.patch, c.now))
  {
  }

  lemma ErrorSolo(c: Ctx, db: Db, id: RowId, err: DedupeError)
    requires id in db.rows && db.rows[id].state.Hashed?
    ensures Solo(c, db, id, OnDedupeError(c, id, db.rows[id], err))
  {
    var s := OnDedupeError(c, id, db.rows[id], err);
    ErrorShape(c, id, db.rows[id], err);
    if s.value.Commit? { HashedMoveSolo(c, db, id, s.value.t.main.to, s.value.t.main.patch); }
  }

  /** How a step may leave another row: settling again, skipped, missing, or a candidate as before. */
  ghost predicate Mends(r: Row, to: State, p: Patch) {
    && (p.group == Keep || p.group == Put(None))
    && p.skipReason != Put(Some(UserUndo))
    && (|| (to.Settling? && p.group == Put(None))
        || (to.Skipped? && p.sparse.Keep? && p.identity.Keep?)
        || (to.Missing? && p.prev == Put(Some(r.state)) && p.sparse.Keep? && p.identity.Keep? && p.group.Keep?)
        || (to == r.state && (to.Sized? || to.Distinct?)))
  }

  lemma ReplaceSound(c: Ctx, db: Db, id: RowId, k: RowId, g: GroupId, to: State, p: Patch)
    requires id in db.rows && db.rows[id].state.Hashed? && db.rows[id].group == Some(g) && k != id && k in db.rows
    requires g in db.groups && db.groups[g].canonical == Some(k)
    requires Mends(db.rows[k], to, p)
    ensures SoundStep(c, db, id, Replace(c, id, k, db.rows[k], g, to, p))
  {
  }

  lemma DisagreeSound(c: Ctx, db: Db, id: RowId, g: GroupId)
    requires id in db.rows && db.rows[id].state.Hashed? && db.rows[id].group == Some(g)
    ensures SoundStep(c, db, id, Disagree(c, db, id, g))
  {
    var s := Disagree(c, db, id, g);
    var r := db.rows[id];
    if NextGroup(db, r.domain, r.size, HashOrZero(r), g).Some? { SoloSound(c, db, id, s); }
  }

  lemma AgreeSound(c: Ctx, db: Db, id: RowId, g: GroupId, seen: Identity)
    requires id in db.rows && db.rows[id].state.Hashed? && db.rows[id].group == Some(g) && g in db.groups
             && seen.size == db.rows[id].size
    ensures SoundStep(c, db, id, Agree(c, id, g, seen))
  {
  }

  lemma ComparedSound(c: Ctx, e: Env, db: Db, id: RowId, g: GroupId, a: Opened, b: Opened)
    requires id in db.rows && db.rows[id].state.Hashed? && db.rows[id].group == Some(g) && g in db.groups
             && b.identity.size == db.rows[id].size
    ensures SoundStep(c, db, id, Compared(c, e, db, id, g, a, b))
  {
    match e.dedupe(a, b, b.identity.size)
    case Ok(Same(_)) => AgreeSound(c, db, id, g, b.identity);
    case Ok(Differs(_)) => DisagreeSound(c, db, id, g);
    case Err(err) =>
      ErrorSolo(c, db, id, err);
      SoloSound(c, db, id, OnDedupeError(c, id, db.rows[id], err));
  }

  lemma OpenedShape(c: Ctx, e: Env, db: Db, id: RowId, k: RowId, g: GroupId, a: Opened, b: Opened)
    requires id in db.rows && db.rows[id].state.Hashed? && k in db.rows
    ensures var s := VerifyOpened(c, e, db, id, k, g, a, b);
      || Solo(c, db, id, s)
      || s == Replace(c, id, k, db.rows[k], g, Settling, Forget(c))
      || (s == Compared(c, e, db, id, g, a, b) && b.identity.size == db.rows[id].size)
  {
  }

  lemma OpenedSound(c: Ctx, e: Env, db: Db, id: RowId, k: RowId, g: GroupId, a: Opened, b: Opened)
    requires id in db.rows && db.rows[id].state.Hashed? && db.rows[id].group == Some(g) && k != id && k in db.rows
    requires g in db.groups && db.groups[g].canonical == Some(k)
    ensures SoundStep(c, db, id, VerifyOpened(c, e, db, id, k, g, a, b))
  {
    var s := VerifyOpened(c, e, db, id, k, g, a, b);
    OpenedShape(c, e, db, id, k, g, a, b);
    if Solo(c, db, id, s) { SoloSound(c, db, id, s); }
    else if s == Replace(c, id, k, db.rows[k], g, Settling, Forget(c)) {
      ReplaceSound(c, db, id, k, g, Settling, Forget(c));
    } else { ComparedSound(c, e, db, id, g, a, b); }
  }

  lemma VerifyPairSound(c: Ctx, e: Env, db: Db, id: RowId, k: RowId, g: GroupId)
    requires id in db.rows && db.rows[id].state.Hashed? && db.rows[id].group == Some(g) && k != id && k in db.rows
    requires g in db.groups && db.groups[g].canonical == Some(k)
    ensures SoundStep(c, db, id, VerifyPair(c, e, db, id, k, g))
  {
    var s := VerifyPair(c, e, db, id, k, g);
    match e.open(db.rows[k].loc)
    case Err(NotFound) =>
      ReplaceSound(c, db, id, k, g, Missing, Ready(None).(prev := Put(Some(db.rows[k].state))));
    case Err(OtherFs(_)) => SoloSound(c, db, id, s);
    case Ok(a) =>
      match OpenDest(c, e, db.rows[id].loc)
      case Err(_) => SoloSound(c, db, id, s);
      case Ok(b) => OpenedSound(c, e, db, id, k, g, a, b);
  }

  lemma VerifySound(c: Ctx, e: Env, db: Db, id: RowId)
    requires id in db.rows && db.rows[id].state.Hashed?
    ensures SoundStep(c, db, id, VerifyStep(c, e, db, id))
  {
    var r := db.rows[id];
    var s := VerifyStep(c, e, db, id);
    if Solo(c, db, id, s) {
      SoloSound(c, db, id, s);
    } else if r.group.value in db.groups {
      var g := r.group.value;
      match CanonicalMember(db, g)
      case None =>
      case Some(k) => VerifyPairSound(c, e, db, id, k, g);
    }
  }

  ghost predicate Peers(db: Db, id: RowId, ks: seq<RowId>) {
    && NoRepeats(ks)
    && id in db.rows && db.rows[id].state.Sized?
    && forall k :: k in ks ==>
         && k in db.rows && k != id && (db.rows[k].state.Sized? || db.rows[k].state.Distinct?)
         && db.rows[k].domain == db.rows[id].domain && db.rows[k].size == db.rows[id].size
  }

  lemma BackfillSound(c: Ctx, e: Env, db: Db, id: RowId, k: RowId)
    requires id in db.rows && db.rows[id].state.Sized?
    requires k in db.rows && k != id && (db.rows[k].state.Sized? || db.rows[k].state.Distinct?)
    ensures SoundStep(c, db, id, Backfill(c, e, db, id, k))
  {
    var s := Backfill(c, e, db, id, k);
    if s.Err? { SoloSound(c, db, id, s); }
    else { MendSound(c, db, id, k, s); }
  }

  lemma MendSound(c: Ctx, db: Db, id: RowId, k: RowId, s: Stepped)
    requires id in db.rows && db.rows[id].state.Sized?
    requires k in db.rows && k != id && (db.rows[k].state.Sized? || db.rows[k].state.Distinct?)
    requires s.Ok? && s.value.Commit? && |s.value.t.others| == 1
    requires var o := s.value.t.others[0];
      && s == MendCandidate(c, id, k, db.rows[k], o.to, o.patch)
      && Mends(db.rows[k], o.to, o.patch)
    ensures SoundStep(c, db, id, s)
  {
  }

  /** The transition of a new group among twins of one key. */
  ghost predicate Makes(c: Ctx, db: Db, id: RowId, twins: seq<RowId>, h: Hash, origin: RowId, t: Transition) {
    && Peers(db, id, twins) && db.rows[id].sparse == Some(h)
    && (forall k :: k in twins ==> db.rows[k].sparse == Some(h))
    && t.main == MakeGroupMain(c, id, origin) && t.now == c.now && |t.others| == |twins|
    && t.group.Some? && t.group.value.Create? && t.group.value.canonical == origin && t.group.value.hash == h
    && (origin == id || origin in twins)
    && forall j :: 0 <= j < |twins| ==> twins[j] in db.rows && t.others[j] == TwinMove(c, db.rows, origin, twins[j])
  }

  lemma TwinSound(c: Ctx, db: Db, id: RowId, twins: seq<RowId>, h: Hash, origin: RowId, t: Transition, j: nat)
    requires Makes(c, db, id, twins, h, origin, t) && j < |twins|
    ensures CasHolds(db.rows, t.main) && CasHolds(db.rows, t.others[j]) && CasOk(db, t, t.others[j])
    ensures t.others[j].id == twins[j] && twins[j] != id
    ensures FiledOk(db) ==> Fits(PatchRow(db.rows[twins[j]], t.others[j], t.now), db.rows[id].domain,
                                 db.rows[id].size, h)
  {
    assert twins[j] in twins;
  }

  lemma MakerSound(c: Ctx, db: Db, id: RowId, twins: seq<RowId>, h: Hash, origin: RowId, t: Transition)
    requires Makes(c, db, id, twins, h, origin, t)
    ensures CasHolds(db.rows, t.main) && CasOk(db, t, t.main)
    ensures var m := PatchRow(db.rows[id], t.main, t.now);
      m.domain == db.rows[id].domain && m.size == db.rows[id].size && (FiledOk(db) ==> Fits(m, m.domain, m.size, h))
  {
  }

  lemma MakeGroupSound(c: Ctx, db: Db, id: RowId, twins: seq<RowId>, h: Hash, origin: RowId, t: Transition)
    requires Makes(c, db, id, twins, h, origin, t)
    ensures IsSound(db, t) && t.main.id == id
  {
    MakerSound(c, db, id, twins, h, origin, t);
    forall j | 0 <= j < |twins|
      ensures CasHolds(db.rows, t.others[j]) && CasOk(db, t, t.others[j]) && t.others[j].id == twins[j]
              && twins[j] != id
      ensures FiledOk(db) ==> Fits(PatchRow(db.rows[twins[j]], t.others[j], t.now), db.rows[id].domain,
                                   db.rows[id].size, h)
    {
      TwinSound(c, db, id, twins, h, origin, t, j);
    }
    assert Steady(db, t);
    if origin != id {
      var j :| 0 <= j < |twins| && twins[j] == origin;
      assert t.others[j] == TwinMove(c, db.rows, origin, twins[j]);
    }
  }

  lemma AmongCandidatesSound(c: Ctx, e: Env, db: Db, id: RowId, h: Hash, cands: seq<RowId>)
    requires Peers(db, id, cands) && db.rows[id].sparse == Some(h)
    ensures SoundStep(c, db, id, AmongCandidates(c, e, db, id, h, cands))
  {
    match FirstUnhashed(db.rows, cands)
    case Some(k) =>
      if c.allowHeavy { BackfillSound(c, e, db, id, k); } else { SoloSound(c, db, id, Ok(Defer(HeavyLater(c)))); }
    case None =>
      var twins := WithHash(db.rows, cands, h);
      if twins != [] {
        MakeGroupSound(c, db, id, twins, h, ChooseCanonical(db.rows, id, twins),
                       MakeGroup(c, db, id, twins, h).value.t);
      } else {
        SoloSound(c, db, id, Move(id, Sized, Distinct, Ready(None), c.now));
      }
  }

  lemma PlaceSound(c: Ctx, e: Env, db: Db, id: RowId, h: Hash)
    requires id in db.rows && db.rows[id].state.Sized? && db.rows[id].sparse == Some(h)
    ensures SoundStep(c, db, id, PlaceInGroup(c, e, db, id, h))
  {
    var s := PlaceInGroup(c, e, db, id, h);
    if Solo(c, db, id, s) {
      SoloSound(c, db, id, s);
    } else if FirstGroup(db, db.rows[id].domain, db.rows[id].size, h).None? {
      AmongCandidatesSound(c, e, db, id, h, SettledPeers(c, db, id));
    }
  }

  lemma SizedSound(c: Ctx, e: Env, db: Db, id: RowId)
    requires id in db.rows && db.rows[id].state.Sized?
    ensures SoundStep(c, db, id, SizedStep(c, e, db, id))
  {
    var s := SizedStep(c, e, db, id);
    HashSolo(c, e, db, id);
    if Solo(c, db, id, s) { SoloSound(c, db, id, s); }
    else { PlaceSound(c, e, db, id, db.rows[id].sparse.value); }
  }

  lemma StepSound(c: Ctx, e: Env, db: Db, id: RowId)
    requires id in db.rows && db.rows[id].state.Queued()
    ensures SoundStep(c, db, id, Step(c, e, db, id))
  {
    match db.rows[id].state
    case Settling =>
      SettleSolo(c, e, db, id);
      SoloSound(c, db, id, SettleStep(c, e, id, db.rows[id]));
    case Sized => SizedSound(c, e, db, id);
    case Hashed => VerifySound(c, e, db, id);
  }
}
