/**
 * What one round of the worker does to the tables, said in columns: for each thing the file system and the backend
 * can answer about the row that is taken, the row afterwards and whatever else the transaction writes.
 */
module Outcomes {
  import opened Wrappers
  import opened Model
  import opened Selection
  import opened StoreSpec
  import opened Pipeline
  import opened Compare

  /** The round takes row `id`. */
  ghost predicate Takes(c: Ctx, db: Db, maxWait: int, id: RowId) {
    NextReady(db.rows, c.now, c.allowHeavy, maxWait) == Some(id)
  }

  /** The round writes row `id` and nothing else. */
  ghost predicate Becomes(c: Ctx, e: Env, db: Db, maxWait: int, id: RowId, r': Row) {
    Round(c, e, db, maxWait) == Worked(db.(rows := db.rows[id := r']))
  }

  lemma MoveBecomes(c: Ctx, e: Env, db: Db, maxWait: int, id: RowId, to: State, p: Patch)
    requires Takes(c, db, maxWait, id) && Step(c, e, db, id) == Move(id, db.rows[id].state, to, p, c.now)
    ensures Becomes(c, e, db, maxWait, id, PatchRow(db.rows[id], Cas(id, db.rows[id].state, to, p), c.now))
  {
  }

  lemma DeferBecomes(c: Ctx, e: Env, db: Db, maxWait: int, id: RowId, until: Ts)
    requires Takes(c, db, maxWait, id) && Step(c, e, db, id) == Ok(Defer(until))
    ensures Becomes(c, e, db, maxWait, id,
                    db.rows[id].(readyAt := Some(if until < c.now then c.now else until), updated := c.now))
  {
  }

  /** The waiting mark of a heavy step goes with the state it was set in. */
  function Leaves(r: Row, to: State, readyAt: Option<Ts>, now: Ts): Row {
    r.(state := to, readyAt := readyAt, heavySince := if to == r.state then r.heavySince else None, updated := now)
  }

  /** The columns a row takes over from an open file. */
  function WithIdentity(r: Row, i: Identity): Row {
    r.(size := i.size, mtime := i.mtime, ctime := i.ctime, nlink := i.nlink, uid := i.uid, mode := i.mode)
  }

  // ---------------------------------------------------------------- settling

  /** The file was written since it was queued: it settles once more. */
  lemma WrittenAgainWaits(c: Ctx, e: Env, db: Db, maxWait: int, id: RowId, i: Identity)
    requires Takes(c, db, maxWait, id) && db.rows[id].state == Settling && e.statx(db.rows[id].loc) == Ok(i)
    requires db.rows[id].enq.Some? && db.rows[id].enq != Some(Fingerprint(i.size, i.mtime, i.ctime))
    ensures Becomes(c, e, db, maxWait, id,
                    Leaves(db.rows[id], Settling, Some(c.now + c.settleDelay), c.now)
                      .(enq := Some(Fingerprint(i.size, i.mtime, i.ctime))))
  {
    var p := Ready(Some(c.now + c.settleDelay)).(enq := Put(Some(i.Print())));
    MoveBecomes(c, e, db, maxWait, id, Settling, p);
  }

  /** The file as it was queued, or one whose queue entry knows no fingerprint. */
  ghost predicate AsQueued(e: Env, r: Row, i: Identity) {
    e.statx(r.loc) == Ok(i) && (r.enq.None? || r.enq == Some(Fingerprint(i.size, i.mtime, i.ctime)))
  }

  /** The file is too young: the round comes back when it is old enough. */
  lemma YoungFileWaits(c: Ctx, e: Env, db: Db, maxWait: int, id: RowId, i: Identity)
    requires Takes(c, db, maxWait, id) && db.rows[id].state == Settling && AsQueued(e, db.rows[id], i)
    requires c.now - MsOf(i.mtime) < c.settleDelay
    ensures Becomes(c, e, db, maxWait, id,
                    db.rows[id].(readyAt := Some(MsOf(i.mtime) + c.settleDelay), updated := c.now))
  {
    DeferBecomes(c, e, db, maxWait, id, MsOf(i.mtime) + c.settleDelay);
  }

  /** The file is old enough and was opened. */
  ghost predicate Settled(c: Ctx, e: Env, r: Row, i: Identity, f: Opened) {
    AsQueued(e, r, i) && c.now - MsOf(i.mtime) >= c.settleDelay && e.open(r.loc) == Ok(f)
  }

  /** One link, no set-id bits, the magic number of a video, and no hole that tells of a partial copy. */
  ghost predicate Eligible(f: Opened) {
    && f.identity.nlink <= 1 && (f.identity.mode / 0x400) % 4 == 0
    && f.magic.Ok? && f.magic.value && f.hole.Ok? && !f.hole.value
  }

  /** The first reason against a settled file, unless an error comes before it. */
  ghost predicate Disqualified(f: Opened, why: SkipReason) {
    match why
    case Hardlink => f.identity.nlink > 1
    case SpecialModeBits => f.identity.nlink <= 1 && (f.identity.mode / 0x400) % 4 != 0
    case BadMagic => f.identity.nlink <= 1 && (f.identity.mode / 0x400) % 4 == 0 && f.magic.Ok? && !f.magic.value
    case _ => false
  }

  /** A settled file that nothing speaks against is sized, with what was seen of it. */
  lemma EligibleIsSized(c: Ctx, e: Env, db: Db, maxWait: int, id: RowId, i: Identity, f: Opened)
    requires Takes(c, db, maxWait, id) && db.rows[id].state == Settling && Settled(c, e, db.rows[id], i, f)
    requires Eligible(f)
    ensures Becomes(c, e, db, maxWait, id,
                    WithIdentity(Leaves(db.rows[id], Sized, Some(c.now), c.now), f.identity)
                      .(enq := Some(Fingerprint(f.identity.size, f.identity.mtime, f.identity.ctime)),
                        magicOk := Some(true), skipReason := None))
  {
    var p := Ready(Some(c.now)).(identity := Put(f.identity), enq := Put(Some(f.identity.Print())),
                                 magicOk := Put(true), skipReason := Put(None));
    MoveBecomes(c, e, db, maxWait, id, Sized, p);
  }

  /** A settled file with something against it is skipped for that reason. */
  lemma DisqualifiedIsSkipped(c: Ctx, e: Env, db: Db, maxWait: int, id: RowId, i: Identity, f: Opened,
                              why: SkipReason)
    requires Takes(c, db, maxWait, id) && db.rows[id].state == Settling && Settled(c, e, db.rows[id], i, f)
    requires Disqualified(f, why)
    ensures Becomes(c, e, db, maxWait, id,
                    WithIdentity(Leaves(db.rows[id], Skipped, None, c.now), f.identity).(skipReason := Some(why)))
  {
    MoveBecomes(c, e, db, maxWait, id, Skipped, Skip(why).(identity := Put(f.identity)));
  }

  /** A hole in an otherwise eligible file: it is looked at again after a day. */
  lemma HoleWaitsADay(c: Ctx, e: Env, db: Db, maxWait: int, id: RowId, i: Identity, f: Opened)
    requires Takes(c, db, maxWait, id) && db.rows[id].state == Settling && Settled(c, e, db.rows[id], i, f)
    requires Eligible(f.(hole := Ok(false))) && f.hole.Ok? && f.hole.value
    ensures Becomes(c, e, db, maxWait, id,
                    WithIdentity(Leaves(db.rows[id], Settling, Some(c.now + 24 * 3_600_000), c.now), f.identity)
                      .(magicOk := Some(true), skipReason := Some(SuspectPartial)))
  {
    var p := Ready(Some(c.now + DAY_MS)).(identity := Put(f.identity), magicOk := Put(true),
                                          skipReason := Put(Some(SuspectPartial)));
    MoveBecomes(c, e, db, maxWait, id, Settling, p);
  }

  /** A settled row becomes sized in its round if and only if nothing speaks against its file. */
  lemma SizedIffEligible(c: Ctx, e: Env, db: Db, maxWait: int, id: RowId, i: Identity, f: Opened)
    requires Takes(c, db, maxWait, id) && db.rows[id].state == Settling && Settled(c, e, db.rows[id], i, f)
    ensures var round := Round(c, e, db, maxWait);
      round.Worked? && id in round.db.rows && (round.db.rows[id].state == Sized <==> Eligible(f))
  {
    if Eligible(f) { EligibleIsSized(c, e, db, maxWait, id, i, f); }
    else if Disqualified(f, Hardlink) { DisqualifiedIsSkipped(c, e, db, maxWait, id, i, f, Hardlink); }
    else if Disqualified(f, SpecialModeBits) { DisqualifiedIsSkipped(c, e, db, maxWait, id, i, f, SpecialModeBits); }
    else if Disqualified(f, BadMagic) { DisqualifiedIsSkipped(c, e, db, maxWait, id, i, f, BadMagic); }
    else if f.magic.Ok? && f.hole.Ok? { HoleWaitsADay(c, e, db, maxWait, id, i, f); }
    else { FailingStep(c, e, db, maxWait, id, if f.magic.Err? then f.magic.error else f.hole.error); }
  }

  // ---------------------------------------------------------------- errors and departures

  /** A temporary error is counted and tried again later, until the eighth gives the row up. */
  lemma FailingStep(c: Ctx, e: Env, db: Db, maxWait: int, id: RowId, err: StepError)
    requires Takes(c, db, maxWait, id) && Step(c, e, db, id) == Err(err)
    ensures var r := db.rows[id];
      var n := r.attempts + 1;
      Becomes(c, e, db, maxWait, id,
              if n >= 8 then Leaves(r, Failed, None, c.now).(attempts := n, lastError := Some(err.text))
              else Leaves(r, r.state, Some(c.now + BackoffMs(n)), c.now).(attempts := n, lastError := Some(err.text)))
  {
    var r := db.rows[id];
    assert r.state.Queued();
    assert Decide(c, id, r, Step(c, e, db, id)) == Fail(c, id, r, err);
  }

  /** The row's file is gone: it remembers its state. */
  function GoneFrom(r: Row, now: Ts): Row { Leaves(r, Missing, None, now).(prev := Some(r.state)) }

  /** What a heavy step waits for when it may not run now. */
  function NextWindow(c: Ctx): Ts { if c.nextHeavyAt.Some? then c.nextHeavyAt.value else c.now + 60_000 }

  /** Size and times as the row stores them. */
  predicate AsStored(i: Identity, r: Row) { i.size == r.size && i.mtime == r.mtime && i.ctime == r.ctime }

  /** The contents changed: everything found out about them is forgotten, and the row settles again. */
  function Resettled(c: Ctx, r: Row): Row {
    Leaves(r, Settling, Some(c.now + c.settleDelay), c.now).(sparse := None, full := None, magicOk := Some(false),
                                                              group := None)
  }

  lemma ResettlesBecomes(c: Ctx, e: Env, db: Db, maxWait: int, id: RowId)
    requires Takes(c, db, maxWait, id) && Step(c, e, db, id) == BackToSettling(c, id, db.rows[id])
    requires !db.rows[id].state.Settling?
    ensures Becomes(c, e, db, maxWait, id, Resettled(c, db.rows[id]))
  {
    var p := Ready(Some(c.now + c.settleDelay)).(sparse := Put(None), full := Put(None), magicOk := Put(false),
                                                 group := Put(None));
    MoveBecomes(c, e, db, maxWait, id, Settling, p);
  }

  lemma VanishBecomes(c: Ctx, e: Env, db: Db, maxWait: int, id: RowId)
    requires Takes(c, db, maxWait, id) && Step(c, e, db, id) == Vanish(id, db.rows[id].state, c.now)
    ensures Becomes(c, e, db, maxWait, id, GoneFrom(db.rows[id], c.now))
  {
    assert db.rows[id].state.Queued();
    MoveBecomes(c, e, db, maxWait, id, Missing, Ready(None).(prev := Put(Some(db.rows[id].state))));
  }

  /** A settling file that is not there, when it is asked about or when it is opened. */
  lemma SettlingFileIsGone(c: Ctx, e: Env, db: Db, maxWait: int, id: RowId, i: Identity)
    requires Takes(c, db, maxWait, id) && db.rows[id].state == Settling
    requires e.statx(db.rows[id].loc) == Err(NotFound)
          || (AsQueued(e, db.rows[id], i) && c.now - MsOf(i.mtime) >= c.settleDelay
              && e.open(db.rows[id].loc) == Err(NotFound))
    ensures Becomes(c, e, db, maxWait, id, GoneFrom(db.rows[id], c.now))
  {
    VanishBecomes(c, e, db, maxWait, id);
  }

  // ---------------------------------------------------------------- the sparse hash

  ghost predicate WantsHash(c: Ctx, db: Db, maxWait: int, id: RowId) {
    Takes(c, db, maxWait, id) && db.rows[id].state == Sized && db.rows[id].sparse.None?
  }

  lemma HashWaitsForWindow(c: Ctx, e: Env, db: Db, maxWait: int, id: RowId)
    requires WantsHash(c, db, maxWait, id) && !c.allowHeavy
    ensures var r := db.rows[id];
      Becomes(c, e, db, maxWait, id,
              if r.heavySince.None? then r.(readyAt := Some(NextWindow(c)), heavySince := Some(c.now), updated := c.now)
              else r.(readyAt := Some(if NextWindow(c) < c.now then c.now else NextWindow(c)), updated := c.now))
  {
    if db.rows[id].heavySince.None? {
      MoveBecomes(c, e, db, maxWait, id, Sized, Ready(Some(HeavyLater(c))).(heavySince := Put(Some(c.now))));
    } else {
      DeferBecomes(c, e, db, maxWait, id, HeavyLater(c));
    }
  }

  /** The file was read to its digest and did not change while it was read. */
  ghost predicate ReadsTo(c: Ctx, r: Row, f: Opened, h: Hash) {
    && AsStored(f.identity, r) && (r.magicOk.Some? || (f.magic.Ok? && f.magic.value))
    && c.hashParamsOk && f.digest == Ok(h)
    && f.refreshed.Ok? && f.refreshed.value.Print() == f.identity.Print()
  }

  /** The digest is stored with its version, and the row is due at once for its group. */
  lemma HashIsStored(c: Ctx, e: Env, db: Db, maxWait: int, id: RowId, f: Opened, h: Hash)
    requires WantsHash(c, db, maxWait, id) && c.allowHeavy && e.open(db.rows[id].loc) == Ok(f)
    requires ReadsTo(c, db.rows[id], f, h)
    ensures Becomes(c, e, db, maxWait, id,
                    db.rows[id].(readyAt := Some(c.now), sparse := Some(h), hashVersion := Some(1),
                                 magicOk := Some(true), heavySince := None, updated := c.now))
  {
    var p := Ready(Some(c.now)).(sparse := Put(Some(h)), hashVersion := Put(HASH_VERSION), magicOk := Put(true),
                                 heavySince := Put(None));
    MoveBecomes(c, e, db, maxWait, id, Sized, p);
  }

  /** A file that is not as stored, before it is read or after. */
  lemma ChangedIsResettled(c: Ctx, e: Env, db: Db, maxWait: int, id: RowId, f: Opened)
    requires WantsHash(c, db, maxWait, id) && c.allowHeavy && e.open(db.rows[id].loc) == Ok(f)
    requires !AsStored(f.identity, db.rows[id])
          || (exists h, i :: ReadsTo(c, db.rows[id], f.(refreshed := Ok(f.identity)), h) && f.refreshed == Ok(i)
                             && i.Print() != f.identity.Print())
    ensures Becomes(c, e, db, maxWait, id, Resettled(c, db.rows[id]))
  {
    ResettlesBecomes(c, e, db, maxWait, id);
  }

  /** No video after all. */
  lemma NoVideoIsSkipped(c: Ctx, e: Env, db: Db, maxWait: int, id: RowId, f: Opened)
    requires WantsHash(c, db, maxWait, id) && c.allowHeavy && e.open(db.rows[id].loc) == Ok(f)
    requires AsStored(f.identity, db.rows[id]) && db.rows[id].magicOk.None? && f.magic == Ok(false)
    ensures Becomes(c, e, db, maxWait, id,
                    Leaves(db.rows[id], Skipped, None, c.now).(skipReason := Some(BadMagic), magicOk := Some(false)))
  {
    MoveBecomes(c, e, db, maxWait, id, Skipped, Skip(BadMagic).(magicOk := Put(false)));
  }

  // ---------------------------------------------------------------- joining a group

  ghost predicate HasKey(db: Db, g: GroupId, r: Row, h: Hash) {
    g in db.groups && db.groups[g].domain == r.domain && db.groups[g].size == r.size && db.groups[g].hash == h
  }

  /** Row `k` is in the group, and the group's pointer names it. */
  ghost predicate Represents(db: Db, g: GroupId, k: RowId) {
    g in db.groups && db.groups[g].canonical == Some(k) && k in db.rows && db.rows[k].group == Some(g)
  }

  ghost predicate OnDisk(r: Row) { r.state != Missing && r.state != Gone }

  /** A hashed file as stored, and the oldest group of its key. */
  ghost predicate Joins(c: Ctx, e: Env, db: Db, maxWait: int, id: RowId, h: Hash, g: GroupId) {
    && Takes(c, db, maxWait, id) && db.rows[id].state == Sized && db.rows[id].sparse == Some(h)
    && e.statx(db.rows[id].loc).Ok? && AsStored(e.statx(db.rows[id].loc).value, db.rows[id])
    && HasKey(db, g, db.rows[id], h)
    && forall x :: HasKey(db, x, db.rows[id], h) ==> g.n <= x.n
  }

  lemma JoinsFirst(c: Ctx, e: Env, db: Db, maxWait: int, id: RowId, h: Hash, g: GroupId)
    requires Joins(c, e, db, maxWait, id, h, g)
    ensures FirstGroup(db, db.rows[id].domain, db.rows[id].size, h) == Some(g)
    ensures Step(c, e, db, id) == PlaceInGroup(c, e, db, id, h)
  {
    var r := db.rows[id];
    var s := GroupsByKey(db, r.domain, r.size, h);
    assert g in s;
    assert HasKey(db, MinId(s), r, h);
  }

  /** The group has a live representative: the row waits to be compared with it, or is it. */
  lemma JoinsRepresented(c: Ctx, e: Env, db: Db, maxWait: int, id: RowId, h: Hash, g: GroupId, k: RowId)
    requires Joins(c, e, db, maxWait, id, h, g) && Represents(db, g, k) && OnDisk(db.rows[k])
    ensures Becomes(c, e, db, maxWait, id,
                    if k == id then Leaves(db.rows[id], Canonical, None, c.now).(group := Some(g))
                    else Leaves(db.rows[id], Hashed, Some(c.now), c.now).(group := Some(g)))
  {
    JoinsFirst(c, e, db, maxWait, id, h, g);
    if k == id { MoveBecomes(c, e, db, maxWait, id, Canonical, Ready(None).(group := Put(Some(g)))); }
    else { MoveBecomes(c, e, db, maxWait, id, Hashed, Ready(Some(c.now)).(group := Put(Some(g)))); }
  }

  /** The group has none: the row represents it from now on. */
  lemma JoinsAbandoned(c: Ctx, e: Env, db: Db, maxWait: int, id: RowId, h: Hash, g: GroupId)
    requires Joins(c, e, db, maxWait, id, h, g) && forall k :: Represents(db, g, k) ==> !OnDisk(db.rows[k])
    ensures Round(c, e, db, maxWait) ==
            Worked(Db(db.rows[id := Leaves(db.rows[id], Canonical, None, c.now).(group := Some(g))],
                      db.groups[g := db.groups[g].(canonical := Some(id))]))
  {
    JoinsFirst(c, e, db, maxWait, id, h, g);
    assert Step(c, e, db, id) == TakeOver(c, id, g) by {
      var k := CanonicalMember(db, g);
      if k.Some? { assert Represents(db, g, k.value); }
    }
    TakeOverIs(c, e, db, maxWait, id, g);
  }

  lemma TakeOverIs(c: Ctx, e: Env, db: Db, maxWait: int, id: RowId, g: GroupId)
    requires Takes(c, db, maxWait, id) && db.rows[id].state == Sized && g in db.groups
    requires Step(c, e, db, id) == TakeOver(c, id, g)
    ensures Round(c, e, db, maxWait) ==
            Worked(Db(db.rows[id := Leaves(db.rows[id], Canonical, None, c.now).(group := Some(g))],
                      db.groups[g := db.groups[g].(canonical := Some(id))]))
  {
    var cas := Cas(id, Sized, Canonical, Ready(None).(group := Put(Some(g))));
    var r' := Leaves(db.rows[id], Canonical, None, c.now).(group := Some(g));
    assert PatchRow(db.rows[id], cas, c.now) == r';
    assert db.rows[id := r'][id := r'.(group := Some(g))] == db.rows[id := r'];
  }

  // ---------------------------------------------------------------- comparing with the representative

  ghost predicate IsHashed(c: Ctx, db: Db, maxWait: int, id: RowId, g: GroupId) {
    && Takes(c, db, maxWait, id) && c.allowHeavy
    && db.rows[id].state == Hashed && db.rows[id].group == Some(g) && g in db.groups
  }

  /** The group has no representative left, or it is the row itself. */
  lemma NobodyToCompareWith(c: Ctx, e: Env, db: Db, maxWait: int, id: RowId, g: GroupId)
    requires IsHashed(c, db, maxWait, id, g) && forall k :: Represents(db, g, k) ==> k == id
    ensures Round(c, e, db, maxWait) ==
            Worked(Db(db.rows[id := Leaves(db.rows[id], Canonical, None, c.now)],
                      db.groups[g := db.groups[g].(canonical := Some(id))]))
  {
    var r' := Leaves(db.rows[id], Canonical, None, c.now);
    assert PatchRow(db.rows[id], Cas(id, Hashed, Canonical, Ready(None)), c.now) == r';
    match CanonicalMember(db, g)
    case Some(k) =>
      assert Represents(db, g, k);
      assert db.groups[g := db.groups[g].(canonical := Some(id))] == db.groups;
      MoveBecomes(c, e, db, maxWait, id, Canonical, Ready(None));
    case None =>
      var cas := Cas(id, Hashed, Canonical, Ready(None));
      SoloInGroup(c, e, db, maxWait, id, cas, SetCanonical(g, id));
      assert db.rows[id := r'][id := r'.(group := Some(g))] == db.rows[id := r'];
  }

  /** A transition of one row with a group operation. */
  lemma SoloInGroup(c: Ctx, e: Env, db: Db, maxWait: int, id: RowId, cas: Cas, op: GroupOp)
    requires Takes(c, db, maxWait, id) && cas.id == id && cas.from == db.rows[id].state
    requires GroupOpAllowed(db, id, op)
    requires Step(c, e, db, id) == Ok(Commit(Transition(cas, c.now, Some(op), [])))
    ensures var mid := db.(rows := db.rows[id := PatchRow(db.rows[id], cas, c.now)]);
      GroupOpAllowed(mid, id, op) && Round(c, e, db, maxWait) == Worked(ApplyGroupOp(mid, id, op, c.now))
  {
  }

  /** Both files are open: `a` that of the representative `k`, `b` that of the row. */
  ghost predicate Faces(c: Ctx, e: Env, db: Db, maxWait: int, id: RowId, g: GroupId, k: RowId, a: Opened, b: Opened) {
    && IsHashed(c, db, maxWait, id, g) && Represents(db, g, k) && k != id
    && (c.verifyMaxSize == 0 || db.rows[id].size <= c.verifyMaxSize)
    && e.open(db.rows[k].loc) == Ok(a)
    && (if c.destNeedsWrite then e.openRw(db.rows[id].loc) else e.open(db.rows[id].loc)) == Ok(b)
  }

  lemma FacesStep(c: Ctx, e: Env, db: Db, maxWait: int, id: RowId, g: GroupId, k: RowId, a: Opened, b: Opened)
    requires Faces(c, e, db, maxWait, id, g, k, a, b)
    ensures Step(c, e, db, id) == VerifyOpened(c, e, db, id, k, g, a, b)
  {
    assert CanonicalMember(db, g) == Some(k);
  }

  /** Nothing about the two files forbids to compare them. */
  ghost predicate MayCompare(db: Db, id: RowId, k: RowId, a: Opened, b: Opened)
    requires id in db.rows && k in db.rows
  {
    && AsStored(b.identity, db.rows[id]) && AsStored(a.identity, db.rows[k])
    && b.identity.nlink <= 1 && (b.identity.mode / 0x400) % 4 == 0
    && a.identity.key != b.identity.key && a.identity.size == b.identity.size
  }

  lemma ComparesStep(c: Ctx, e: Env, db: Db, maxWait: int, id: RowId, g: GroupId, k: RowId, a: Opened, b: Opened)
    requires Faces(c, e, db, maxWait, id, g, k, a, b) && MayCompare(db, id, k, a, b)
    ensures Step(c, e, db, id) == Compared(c, e, db, id, g, a, b)
  {
    FacesStep(c, e, db, maxWait, id, g, k, a, b);
  }

  lemma TooLargeIsSkipped(c: Ctx, e: Env, db: Db, maxWait: int, id: RowId, g: GroupId, k: RowId)
    requires IsHashed(c, db, maxWait, id, g) && Represents(db, g, k) && k != id
    requires 0 < c.verifyMaxSize < db.rows[id].size
    ensures Becomes(c, e, db, maxWait, id,
                    db.rows[id].(readyAt := None, skipReason := Some(TooLarge), updated := c.now))
  {
    assert CanonicalMember(db, g) == Some(k);
    MoveBecomes(c, e, db, maxWait, id, Hashed, Skip(TooLarge));
  }

  /** What happens to a row whose file may not be compared: skipped for its own sake, failed for the pair's. */
  function Rejected(c: Ctx, r: Row, a: Identity, b: Identity): Row {
    if b.nlink > 1 then Leaves(r, Skipped, None, c.now).(skipReason := Some(Hardlink))
    else if (b.mode / 0x400) % 4 != 0 then Leaves(r, Skipped, None, c.now).(skipReason := Some(SpecialModeBits))
    else Leaves(r, Failed, None, c.now).(lastError := Some(if a.key == b.key then "one inode" else "sizes differ"))
  }

  /** The row's own file changed. */
  lemma ComparedFileChanged(c: Ctx, e: Env, db: Db, maxWait: int, id: RowId, g: GroupId, k: RowId, a: Opened, b: Opened)
    requires Faces(c, e, db, maxWait, id, g, k, a, b) && !AsStored(b.identity, db.rows[id])
    ensures Becomes(c, e, db, maxWait, id, Resettled(c, db.rows[id]))
  {
    FacesStep(c, e, db, maxWait, id, g, k, a, b);
    ResettlesBecomes(c, e, db, maxWait, id);
  }

  /** Both files are as stored, but may not be compared. */
  lemma UnfitIsNotCompared(c: Ctx, e: Env, db: Db, maxWait: int, id: RowId, g: GroupId, k: RowId, a: Opened, b: Opened)
    requires Faces(c, e, db, maxWait, id, g, k, a, b) && !MayCompare(db, id, k, a, b)
    requires AsStored(b.identity, db.rows[id]) && AsStored(a.identity, db.rows[k])
    ensures Becomes(c, e, db, maxWait, id, Rejected(c, db.rows[id], a.identity, b.identity))
  {
    FacesStep(c, e, db, maxWait, id, g, k, a, b);
    if b.identity.nlink > 1 {
      MoveBecomes(c, e, db, maxWait, id, Skipped, Skip(Hardlink));
    } else if (b.identity.mode / 0x400) % 4 != 0 {
      MoveBecomes(c, e, db, maxWait, id, Skipped, Skip(SpecialModeBits));
    } else {
      GiveUpBecomes(c, e, db, maxWait, id, if a.identity.key == b.identity.key then "one inode" else "sizes differ");
    }
  }

  lemma GiveUpBecomes(c: Ctx, e: Env, db: Db, maxWait: int, id: RowId, why: string)
    requires Takes(c, db, maxWait, id) && db.rows[id].state == Hashed && Step(c, e, db, id) == GiveUpOn(c, id, why)
    ensures Becomes(c, e, db, maxWait, id, Leaves(db.rows[id], Failed, None, c.now).(lastError := Some(why)))
  {
    MoveBecomes(c, e, db, maxWait, id, Failed, Ready(None).(lastError := Put(Some(why))));
  }

  // ---------------------------------------------------------------- the representative fails

  /** Row `id` represents the group instead of `k`, which becomes `k'`. */
  ghost predicate Supersedes(c: Ctx, e: Env, db: Db, maxWait: int, id: RowId, g: GroupId, k: RowId, k': Row)
    requires id in db.rows && g in db.groups
  {
    Round(c, e, db, maxWait) ==
    Worked(Db(db.rows[id := Leaves(db.rows[id], Canonical, None, c.now)][k := k'],
              db.groups[g := db.groups[g].(canonical := Some(id))]))
  }

  lemma ReplaceSupersedes(c: Ctx, e: Env, db: Db, maxWait: int, id: RowId, g: GroupId, k: RowId, to: State, p: Patch)
    requires IsHashed(c, db, maxWait, id, g) && k in db.rows && k != id
    requires Step(c, e, db, id) == Replace(c, id, k, db.rows[k], g, to, p)
    ensures Supersedes(c, e, db, maxWait, id, g, k, PatchRow(db.rows[k], Cas(k, db.rows[k].state, to, p), c.now))
  {
    var main, other := Cas(id, Hashed, Canonical, Ready(None)), Cas(k, db.rows[k].state, to, p);
    var r' := Leaves(db.rows[id], Canonical, None, c.now);
    assert PatchRow(db.rows[id], main, c.now) == r';
    ApplyPair(db, main, other, c.now);
    var mid := db.rows[id := r'][k := PatchRow(db.rows[k], other, c.now)];
    ApplySets(db, Transition(main, c.now, Some(SetCanonical(g, id)), [other]), mid, id, g);
    assert mid[id := r'.(group := Some(g))] == mid;
  }

  /** A group operation comes on top of what the transition does without it. */
  lemma ApplySets(db: Db, t: Transition, mid: map<RowId, Row>, id: RowId, g: GroupId)
    requires t.group == Some(SetCanonical(g, id)) && g in db.groups && id in mid
    requires Apply(db, t.(group := None)) == Applied(db.(rows := mid), true)
    ensures Apply(db, t) ==
            Applied(Db(mid[id := mid[id].(group := Some(g))],
                       db.groups[g := db.groups[g].(canonical := Some(id))]), true)
  {
  }

  lemma RepresentativeIsGone(c: Ctx, e: Env, db: Db, maxWait: int, id: RowId, g: GroupId, k: RowId)
    requires IsHashed(c, db, maxWait, id, g) && Represents(db, g, k) && k != id
    requires c.verifyMaxSize == 0 || db.rows[id].size <= c.verifyMaxSize
    requires e.open(db.rows[k].loc) == Err(NotFound)
    ensures Supersedes(c, e, db, maxWait, id, g, k,
                       db.rows[k].(state := Missing, prev := Some(db.rows[k].state), readyAt := None, updated := c.now,
                                   heavySince := if db.rows[k].state == Missing then db.rows[k].heavySince else None))
  {
    assert CanonicalMember(db, g) == Some(k);
    ReplaceSupersedes(c, e, db, maxWait, id, g, k, Missing, Ready(None).(prev := Put(Some(db.rows[k].state))));
  }

  /** The representative's file is not as stored: it settles anew, without hash and group. */
  lemma RepresentativeChanged(c: Ctx, e: Env, db: Db, maxWait: int, id: RowId, g: GroupId, k: RowId, a: Opened,
                              b: Opened)
    requires Faces(c, e, db, maxWait, id, g, k, a, b)
    requires AsStored(b.identity, db.rows[id]) && !AsStored(a.identity, db.rows[k])
    ensures Supersedes(c, e, db, maxWait, id, g, k,
                       Leaves(db.rows[k], Settling, Some(c.now + c.settleDelay), c.now).(sparse := None, group := None))
  {
    FacesStep(c, e, db, maxWait, id, g, k, a, b);
    ReplaceSupersedes(c, e, db, maxWait, id, g, k, Settling, Forget(c));
  }

  // ---------------------------------------------------------------- what the backend answers

  ghost predicate Asked(c: Ctx, e: Env, db: Db, maxWait: int, id: RowId, g: GroupId, k: RowId, a: Opened, b: Opened,
                        answer: Result<DedupeOutcome, DedupeError>) {
    Faces(c, e, db, maxWait, id, g, k, a, b) && MayCompare(db, id, k, a, b)
    && e.dedupe(a, b, b.identity.size) == answer
  }

  /** The files are the same: the row is done, and the group was verified now or before. */
  lemma SameIsDone(c: Ctx, e: Env, db: Db, maxWait: int, id: RowId, g: GroupId, k: RowId, a: Opened, b: Opened, n: nat)
    requires Asked(c, e, db, maxWait, id, g, k, a, b, Ok(Same(n)))
    ensures Round(c, e, db, maxWait) ==
            Worked(Db(db.rows[id := WithIdentity(Leaves(db.rows[id], if c.sharesExtents then Deduped else Verified,
                                                        None, c.now), b.identity).(attempts := 0)],
                      db.groups[g := db.groups[g].(verifiedAt := if db.groups[g].verifiedAt.Some?
                                                                 then db.groups[g].verifiedAt else Some(c.now))]))
  {
    ComparesStep(c, e, db, maxWait, id, g, k, a, b);
    var cas := Cas(id, Hashed, if c.sharesExtents then Deduped else Verified,
                   Ready(None).(identity := Put(b.identity), attempts := Put(0)));
    SoloInGroup(c, e, db, maxWait, id, cas, MarkVerified(g, None));
  }

  /** Group `x` of the row's key comes after `g`, and no other one in between. */
  ghost predicate ComesNext(db: Db, r: Row, g: GroupId, x: GroupId) {
    && HasKey(db, x, r, if r.sparse.Some? then r.sparse.value else 0) && g.n < x.n
    && forall y :: HasKey(db, y, r, if r.sparse.Some? then r.sparse.value else 0) && g.n < y.n ==> x.n <= y.n
  }

  lemma NextGroupIs(db: Db, r: Row, g: GroupId)
    ensures var x := NextGroup(db, r.domain, r.size, HashOrZero(r), g);
      if x.Some? then ComesNext(db, r, g, x.value)
      else forall y :: HasKey(db, y, r, HashOrZero(r)) ==> y.n <= g.n
  {
    var all := GroupsByKey(db, r.domain, r.size, HashOrZero(r));
    var s := set y | y in all && g.n < y.n;
    forall y ensures y in s <==> HasKey(db, y, r, HashOrZero(r)) && g.n < y.n {}
  }

  /** The files differ and the key has a later group: the row is compared with that one's representative next. */
  lemma DifferentTriesNext(c: Ctx, e: Env, db: Db, maxWait: int, id: RowId, g: GroupId, k: RowId, a: Opened, b: Opened,
                           at: nat, x: GroupId)
    requires Asked(c, e, db, maxWait, id, g, k, a, b, Ok(Differs(at))) && ComesNext(db, db.rows[id], g, x)
    ensures Becomes(c, e, db, maxWait, id, db.rows[id].(readyAt := Some(c.now), group := Some(x), updated := c.now))
  {
    ComparesStep(c, e, db, maxWait, id, g, k, a, b);
    NextGroupIs(db, db.rows[id], g);
    MoveBecomes(c, e, db, maxWait, id, Hashed, Ready(Some(c.now)).(group := Put(Some(x))));
  }

  /** The files differ and there is no later group: the row represents a new one. */
  lemma DifferentFounds(c: Ctx, e: Env, db: Db, maxWait: int, id: RowId, g: GroupId, k: RowId, a: Opened, b: Opened,
                        at: nat)
    requires Asked(c, e, db, maxWait, id, g, k, a, b, Ok(Differs(at)))
    requires forall x :: !ComesNext(db, db.rows[id], g, x)
    ensures var r := db.rows[id];
      exists x :: x !in db.groups && Round(c, e, db, maxWait) ==
        Worked(Db(db.rows[id := Leaves(r, Canonical, None, c.now).(group := Some(x))],
                  db.groups[x := Group(r.domain, r.size, if r.sparse.Some? then r.sparse.value else 0, 1, None,
                                       Some(id), None, c.now)]))
  {
    ComparesStep(c, e, db, maxWait, id, g, k, a, b);
    NextGroupIs(db, db.rows[id], g);
    var cas := Cas(id, Hashed, Canonical, Ready(None).(group := Put(None)));
    SoloInGroup(c, e, db, maxWait, id, cas, Create(id, HashOrZero(db.rows[id]), HASH_VERSION));
    Founded(c, db, id, cas, NextId(db.groups.Keys));
  }

  lemma Founded(c: Ctx, db: Db, id: RowId, cas: Cas, x: GroupId)
    requires id in db.rows && cas == Cas(id, Hashed, Canonical, Ready(None).(group := Put(None)))
    requires db.rows[id].state == Hashed && x == NextId(db.groups.Keys)
    ensures var r := db.rows[id];
      var mid := db.(rows := db.rows[id := PatchRow(r, cas, c.now)]);
      ApplyGroupOp(mid, id, Create(id, HashOrZero(r), HASH_VERSION), c.now) ==
      Db(db.rows[id := Leaves(r, Canonical, None, c.now).(group := Some(x))],
         db.groups[x := Group(r.domain, r.size, HashOrZero(r), 1, None, Some(id), None, c.now)])
  {
    var r := db.rows[id];
    var r' := Leaves(r, Canonical, None, c.now);
    assert PatchRow(r, cas, c.now) == r'.(group := None);
    var rows := db.rows[id := r'.(group := None)];
    assert rows[id := r'.(group := Some(x))] == db.rows[id := r'.(group := Some(x))];
  }

  /**
   * Report mode, when nothing disturbs the comparison: the row is verified if and only if the two files hold the
   * same bytes.
   */
  lemma VerifiedIffEqual(c: Ctx, e: Env, db: Db, maxWait: int, id: RowId, g: GroupId, k: RowId, a: Opened, b: Opened,
                         paused: nat -> bool)
    requires !c.sharesExtents
    requires Asked(c, e, db, maxWait, id, g, k, a, b, DryRun(true, paused, a, b, b.identity.size))
    requires Undisturbed(a, b, b.identity.size, paused)
    ensures var round, n := Round(c, e, db, maxWait), b.identity.size;
      && round.Worked? && id in round.db.rows
      && (round.db.rows[id].state == Verified <==> a.bytes[..n] == b.bytes[..n])
  {
    var n := b.identity.size;
    SameIffEqual(a, b, n, paused);
    CompareMeans(a, b, n, 0, paused);
    match CompareFrom(a, b, n, 0, paused)
    case Ok(Same(m)) => SameIsDone(c, e, db, maxWait, id, g, k, a, b, m);
    case Ok(Differs(at)) => DifferentIsNotVerified(c, e, db, maxWait, id, g, k, a, b, at);
    case _ =>
  }

  lemma DifferentIsNotVerified(c: Ctx, e: Env, db: Db, maxWait: int, id: RowId, g: GroupId, k: RowId, a: Opened,
                               b: Opened, at: nat)
    requires Asked(c, e, db, maxWait, id, g, k, a, b, Ok(Differs(at)))
    ensures var round := Round(c, e, db, maxWait);
      round.Worked? && id in round.db.rows && round.db.rows[id].state in {Hashed, Canonical}
  {
    if x :| ComesNext(db, db.rows[id], g, x) { DifferentTriesNext(c, e, db, maxWait, id, g, k, a, b, at, x); }
    else { DifferentFounds(c, e, db, maxWait, id, g, k, a, b, at); }
  }

  // ---------------------------------------------------------------- the backend's errors

  /** Errors that say nothing about the pair: tried again later, and counted. */
  ghost predicate MayPass(err: DedupeError) {
    err.Busy? || err.IoError? || err.RepoError?
    || (err.Errno? && err.code !in {4, 95, 25, 18, 22, 30, 26, 2, 116, 9, 21})
  }

  /** The row once an attempt failed with `err`; `done` is the error number of an operation that cannot work at all. */
  ghost function AfterError(c: Ctx, r: Row, err: DedupeError): Row {
    var n := r.attempts + 1;
    if err.Stopped? then r.(readyAt := Some(c.now + 60_000), updated := c.now)
    else if err == Errno(4) then r.(readyAt := Some(c.now), updated := c.now)
    else if MayPass(err) then
      r.(readyAt := Some(c.now + BackoffMs(n)), attempts := n, lastError := Some(ErrorText(err)), updated := c.now)
    else if err.FingerprintChanged? then
      Leaves(r, Settling, Some(c.now + if n >= 5 then 24 * 3_600_000 else BackoffMs(n)), c.now)
        .(attempts := n, skipReason := if n >= 5 then Some(Unstable) else None, sparse := None, group := None)
    else if err.Errno? && err.code in {95, 25} then
      r.(readyAt := None, skipReason := Some(Unsupported), lastError := Some(ErrorText(err)), updated := c.now)
    else if err.Errno? && err.code in {18, 22, 30, 26, 2, 116} then
      Leaves(r, Sized, Some(c.now), c.now).(group := None, skipReason := Some(Unsupported))
    else Leaves(r, Failed, None, c.now).(lastError := Some(ErrorText(err)))
  }

  /** The row that a decision about a single hashed row leads to. */
  ghost function RowAfter(c: Ctx, r: Row, s: Outcome): Row {
    match s
    case Commit(t) => PatchRow(r, t.main, c.now)
    case Defer(until) => r.(readyAt := Some(if until < c.now then c.now else until), updated := c.now)
    case Noop => r
  }

  lemma PassingErrorRow(c: Ctx, id: RowId, r: Row, err: DedupeError)
    requires MayPass(err) && r.state == Hashed
    ensures OnDedupeError(c, id, r, err) == BackoffMove(c, id, r.attempts + 1, err)
    ensures RowAfter(c, r, OnDedupeError(c, id, r, err).value) == AfterError(c, r, err)
  {
  }

  lemma ChangedErrorRow(c: Ctx, id: RowId, r: Row)
    requires r.state == Hashed
    ensures OnDedupeError(c, id, r, FingerprintChanged).Ok?
    ensures RowAfter(c, r, OnDedupeError(c, id, r, FingerprintChanged).value) == AfterError(c, r, FingerprintChanged)
  {
  }

  lemma ErrnoRow(c: Ctx, id: RowId, r: Row, code: int)
    requires r.state == Hashed && !MayPass(Errno(code))
    ensures OnDedupeError(c, id, r, Errno(code)).Ok?
    ensures RowAfter(c, r, OnDedupeError(c, id, r, Errno(code)).value) == AfterError(c, r, Errno(code))
  {
    match OfErrno(code)
    case ParkDomain =>
    case PairImpossible =>
    case GiveUp =>
    case RetryNow =>
  }

  lemma LastingErrorRow(c: Ctx, id: RowId, r: Row, err: DedupeError)
    requires !MayPass(err) && r.state == Hashed
    ensures OnDedupeError(c, id, r, err).Ok?
    ensures RowAfter(c, r, OnDedupeError(c, id, r, err).value) == AfterError(c, r, err)
  {
    match err
    case FingerprintChanged => ChangedErrorRow(c, id, r);
    case Errno(code) => ErrnoRow(c, id, r, code);
    case Stopped =>
    case NoProgress =>
  }

  lemma ErrorIsSolo(c: Ctx, id: RowId, r: Row, err: DedupeError)
    ensures var s := OnDedupeError(c, id, r, err);
      s.Ok? && (s.value.Defer?
                || (s.value.Commit? && s == Move(id, Hashed, s.value.t.main.to, s.value.t.main.patch, c.now)))
  {
  }

  lemma SoloBecomes(c: Ctx, e: Env, db: Db, maxWait: int, id: RowId, s: Stepped)
    requires Takes(c, db, maxWait, id) && db.rows[id].state == Hashed && Step(c, e, db, id) == s && s.Ok?
    requires s.value.Defer?
          || (s.value.Commit? && s == Move(id, Hashed, s.value.t.main.to, s.value.t.main.patch, c.now))
    ensures Becomes(c, e, db, maxWait, id, RowAfter(c, db.rows[id], s.value))
  {
    if s.value.Defer? { DeferBecomes(c, e, db, maxWait, id, s.value.until); }
    else { MoveBecomes(c, e, db, maxWait, id, s.value.t.main.to, s.value.t.main.patch); }
  }

  /** Each error of the backend has its consequence for the row, and for nothing else. */
  lemma ErrorHasItsConsequence(c: Ctx, e: Env, db: Db, maxWait: int, id: RowId, g: GroupId, k: RowId, a: Opened,
                               b: Opened, err: DedupeError)
    requires Asked(c, e, db, maxWait, id, g, k, a, b, Err(err))
    ensures Becomes(c, e, db, maxWait, id, AfterError(c, db.rows[id], err))
  {
    ComparesStep(c, e, db, maxWait, id, g, k, a, b);
    ErrorIsSolo(c, id, db.rows[id], err);
    SoloBecomes(c, e, db, maxWait, id, OnDedupeError(c, id, db.rows[id], err));
    if MayPass(err) { PassingErrorRow(c, id, db.rows[id], err); } else { LastingErrorRow(c, id, db.rows[id], err); }
  }

  /** The waiting time doubles with every attempt, from a quarter of an hour up to a day. */
  lemma BackoffDoubles(n: nat)
    ensures BackoffMs(0) == 15 * 60_000
    ensures BackoffMs(n + 1) == if 2 * BackoffMs(n) < 24 * 3_600_000 then 2 * BackoffMs(n) else 24 * 3_600_000
  {
    if n >= 7 {
      PowAtLeast(if n < 16 then n else 16);
      PowAtLeast(if n + 1 < 16 then n + 1 else 16);
    }
  }

  lemma {:induction false} PowAtLeast(n: nat)
    requires n >= 7
    ensures Pow2(n) >= 128
  {
    if n > 7 { PowAtLeast(n - 1); } else { assert Pow2(7) == 128; }
  }

  // ---------------------------------------------------------------- the remaining answers

  /** A file that is not there when a later step asks for it. */
  lemma LaterFileIsGone(c: Ctx, e: Env, db: Db, maxWait: int, id: RowId)
    requires Takes(c, db, maxWait, id)
    requires var r := db.rows[id];
      || (WantsHash(c, db, maxWait, id) && c.allowHeavy && e.open(r.loc) == Err(NotFound))
      || (r.state == Sized && r.sparse.Some? && e.statx(r.loc) == Err(NotFound))
    ensures Becomes(c, e, db, maxWait, id, GoneFrom(db.rows[id], c.now))
  {
    VanishBecomes(c, e, db, maxWait, id);
  }

  /** The row's file is gone when it is to be compared; its representative's is there. */
  lemma ComparedFileIsGone(c: Ctx, e: Env, db: Db, maxWait: int, id: RowId, g: GroupId, k: RowId)
    requires IsHashed(c, db, maxWait, id, g) && Represents(db, g, k) && k != id && e.open(db.rows[k].loc).Ok?
    requires c.verifyMaxSize == 0 || db.rows[id].size <= c.verifyMaxSize
    requires (if c.destNeedsWrite then e.openRw(db.rows[id].loc) else e.open(db.rows[id].loc)) == Err(NotFound)
    ensures Becomes(c, e, db, maxWait, id, GoneFrom(db.rows[id], c.now))
  {
    assert CanonicalMember(db, g) == Some(k);
    VanishBecomes(c, e, db, maxWait, id);
  }

  /** A hashed file with other contents than it was hashed for. */
  lemma HashedFileChanged(c: Ctx, e: Env, db: Db, maxWait: int, id: RowId, i: Identity)
    requires Takes(c, db, maxWait, id) && db.rows[id].state == Sized && db.rows[id].sparse.Some?
    requires e.statx(db.rows[id].loc) == Ok(i) && !AsStored(i, db.rows[id])
    ensures Becomes(c, e, db, maxWait, id, Resettled(c, db.rows[id]))
  {
    ResettlesBecomes(c, e, db, maxWait, id);
  }

  /** A hashed row without a group looks for one again. */
  lemma UngroupedLooksAgain(c: Ctx, e: Env, db: Db, maxWait: int, id: RowId)
    requires Takes(c, db, maxWait, id) && db.rows[id].state == Hashed && db.rows[id].group.None?
    ensures Becomes(c, e, db, maxWait, id, Leaves(db.rows[id], Sized, Some(c.now), c.now))
  {
    MoveBecomes(c, e, db, maxWait, id, Sized, Ready(Some(c.now)));
  }

  // ---------------------------------------------------------------- reading another candidate

  /** The candidate becomes `k'`; the row asks again at once. */
  ghost predicate MendsFor(c: Ctx, e: Env, db: Db, maxWait: int, id: RowId, k: RowId, k': Row)
    requires id in db.rows
  {
    Round(c, e, db, maxWait) ==
    Worked(db.(rows := db.rows[id := db.rows[id].(readyAt := Some(c.now), heavySince := None, updated := c.now)]
                              [k := k']))
  }

  lemma MendIs(c: Ctx, e: Env, db: Db, maxWait: int, id: RowId, k: RowId, to: State, p: Patch)
    requires Takes(c, db, maxWait, id) && db.rows[id].state == Sized && k in db.rows && k != id
    requires Step(c, e, db, id) == MendCandidate(c, id, k, db.rows[k], to, p)
    ensures MendsFor(c, e, db, maxWait, id, k, PatchRow(db.rows[k], Cas(k, db.rows[k].state, to, p), c.now))
  {
    var main := Cas(id, Sized, Sized, Ready(Some(c.now)).(heavySince := Put(None)));
    ApplyPair(db, main, Cas(k, db.rows[k].state, to, p), c.now);
  }

  /** The row's step comes down to reading candidate `k`. */
  ghost predicate ReadsCandidate(c: Ctx, e: Env, db: Db, maxWait: int, id: RowId, k: RowId) {
    && Takes(c, db, maxWait, id) && db.rows[id].state == Sized && k in db.rows && k != id
    && db.rows[k].state in {Sized, Distinct} && Step(c, e, db, id) == Backfill(c, e, db, id, k)
  }

  lemma CandidateIsGone(c: Ctx, e: Env, db: Db, maxWait: int, id: RowId, k: RowId)
    requires ReadsCandidate(c, e, db, maxWait, id, k) && e.open(db.rows[k].loc) == Err(NotFound)
    ensures MendsFor(c, e, db, maxWait, id, k, GoneFrom(db.rows[k], c.now))
  {
    MendIs(c, e, db, maxWait, id, k, Missing, Ready(None).(prev := Put(Some(db.rows[k].state))));
  }

  function ForgetCandidate(c: Ctx, i: Identity): Patch {
    Ready(Some(c.now + c.settleDelay)).(identity := Put(i), sparse := Put(None), full := Put(None), group := Put(None))
  }

  lemma ForgottenRow(c: Ctx, r: Row, k: RowId, i: Identity)
    requires r.state in {Sized, Distinct}
    ensures PatchRow(r, Cas(k, r.state, Settling, ForgetCandidate(c, i)), c.now) ==
            WithIdentity(Leaves(r, Settling, Some(c.now + c.settleDelay), c.now), i)
              .(sparse := None, full := None, group := None)
  {
  }

  lemma CandidateChanged(c: Ctx, e: Env, db: Db, maxWait: int, id: RowId, k: RowId, f: Opened)
    requires ReadsCandidate(c, e, db, maxWait, id, k) && e.open(db.rows[k].loc) == Ok(f)
    requires !AsStored(f.identity, db.rows[k])
    ensures MendsFor(c, e, db, maxWait, id, k,
                     WithIdentity(Leaves(db.rows[k], Settling, Some(c.now + c.settleDelay), c.now), f.identity)
                       .(sparse := None, full := None, group := None))
  {
    MendIs(c, e, db, maxWait, id, k, Settling, ForgetCandidate(c, f.identity));
    ForgottenRow(c, db.rows[k], k, f.identity);
  }

  /** The candidate's digest is stored; it keeps its state and its date. */
  lemma CandidateIsHashed(c: Ctx, e: Env, db: Db, maxWait: int, id: RowId, k: RowId, f: Opened, h: Hash)
    requires ReadsCandidate(c, e, db, maxWait, id, k) && e.open(db.rows[k].loc) == Ok(f)
    requires AsStored(f.identity, db.rows[k]) && f.identity.nlink <= 1
    requires (db.rows[k].magicOk.Some? || (f.magic.Ok? && f.magic.value)) && c.hashParamsOk && f.digest == Ok(h)
    ensures MendsFor(c, e, db, maxWait, id, k,
                     db.rows[k].(sparse := Some(h), hashVersion := Some(1), magicOk := Some(true), updated := c.now))
  {
    MendIs(c, e, db, maxWait, id, k, db.rows[k].state,
           NO_PATCH.(sparse := Put(Some(h)), hashVersion := Put(HASH_VERSION), magicOk := Put(true)));
  }

  lemma CandidateIsUnfit(c: Ctx, e: Env, db: Db, maxWait: int, id: RowId, k: RowId, f: Opened)
    requires ReadsCandidate(c, e, db, maxWait, id, k) && e.open(db.rows[k].loc) == Ok(f)
    requires AsStored(f.identity, db.rows[k])
    requires f.identity.nlink > 1 || (db.rows[k].magicOk.None? && f.magic.Ok? && !f.magic.value)
    ensures MendsFor(c, e, db, maxWait, id, k,
                     Leaves(db.rows[k], Skipped, None, c.now)
                       .(skipReason := Some(if f.identity.nlink > 1 then Hardlink else BadMagic)))
  {
    MendIs(c, e, db, maxWait, id, k, Skipped, Skip(if f.identity.nlink > 1 then Hardlink else BadMagic));
  }
}