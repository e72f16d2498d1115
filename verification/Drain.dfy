/**
 * The worker drains its queue: at a fixed time, whatever the file system answers,
 * every round lowers a measure, so the queue runs empty without the round limit.
 */
module Drain {
  import opened Wrappers
  import opened Model
  import opened Selection
  import opened StoreSpec
  import opened Pipeline
  import opened Sums
  import opened Grouping

  ghost predicate Due(r: Row, now: Ts) {
    r.readyAt.Some? && r.readyAt.value <= now
  }

  /**
   * How far a row is from rest. Rows that nothing in this drain can wake count zero;
   * rows that may still be woken as candidates weigh more than what they are woken to.
   */
  ghost function WeightOf(r: Row, grouped: bool, now: Ts): nat {
    match r.state
    case Settling => if Due(r, now) then 12 else 0
    case Sized => (if r.sparse.None? then 10 else if grouped then 5 else 8) + (if Due(r, now) then 1 else 0)
    case Distinct => if r.sparse.None? then 10 else if grouped then 0 else 8
    case Hashed => if !Due(r, now) then 0 else if r.group.None? then 7 else 4
    case _ => 0
  }

  ghost function Weight(db: Db, now: Ts): Id -> nat {
    i => if i in db.rows then WeightOf(db.rows[i], Grouped(db, db.rows[i]), now) else 0
  }

  /** Groups of its key that a hashed row has not tried yet. */
  ghost function Tries(db: Db): Id -> nat {
    i => if i in db.rows && db.rows[i].state.Hashed? && db.rows[i].group.Some?
         then |LaterGroups(db, db.rows[i], db.rows[i].group.value)| else 0
  }

  ghost function LaterGroups(db: Db, r: Row, g: GroupId): set<GroupId> {
    set x | x in GroupsByKey(db, r.domain, r.size, HashOrZero(r)) && g.n < x.n
  }

  ghost function TotalWeight(db: Db, now: Ts): nat { Sum(db.rows.Keys, Weight(db, now)) }

  ghost function TotalTries(db: Db): nat { Sum(db.rows.Keys, Tries(db)) }

  /** The measure goes down lexicographically, and the hashed rows stay well-formed. */
  ghost predicate Lower(db: Db, db': Db, now: Ts) {
    && db'.rows.Keys == db.rows.Keys
    && HashedOk(db')
    && (|| TotalWeight(db', now) < TotalWeight(db, now)
        || (TotalWeight(db', now) <= TotalWeight(db, now) && TotalTries(db') < TotalTries(db)
            && db'.groups == db.groups))
  }

  /** What the claim assumes of the clock: deferrals land after `now`. */
  ghost predicate ClockOk(c: Ctx) {
    c.settleDelay > 0 && (c.nextHeavyAt.Some? ==> c.nextHeavyAt.value > c.now)
  }

  /** The backend's answer for this pair sends the row round once more: EINTR, or an error that rules out the pair. */
  ghost predicate Unhelpful(e: Env, a: Opened, b: Opened) {
    var r := e.dedupe(a, b, b.identity.size);
    r.Err? && (PolicyOf(r.error).RetryNow? || PolicyOf(r.error).PairImpossible?)
  }

  /** A deduper that never answers so. */
  ghost predicate DeduperOk(e: Env) {
    forall a, b :: !Unhelpful(e, a, b)
  }

  /** The opened files pass every check, so the backend is asked. */
  ghost predicate PassesChecks(r: Row, canon: Row, a: Opened, b: Opened) {
    && b.identity.Print() == r.Print() && a.identity.Print() == canon.Print()
    && b.identity.nlink <= 1 && !SpecialMode(b.identity.mode)
    && a.identity.key != b.identity.key && a.identity.size == b.identity.size
  }

  /** The step of row `id` asks the backend about the files `a` of canonical row `k` and `b`. */
  ghost predicate Asks(c: Ctx, e: Env, db: Db, id: RowId, k: RowId, a: Opened, b: Opened) {
    && id in db.rows && k in db.rows && k != id
    && var r := db.rows[id];
       && r.state.Hashed? && r.group.Some? && r.group.value in db.groups
       && CanonicalMember(db, r.group.value) == Some(k)
       && c.allowHeavy && !(c.verifyMaxSize > 0 && r.size > c.verifyMaxSize)
       && e.open(db.rows[k].loc) == Ok(a) && OpenDest(c, e, r.loc) == Ok(b) && PassesChecks(r, db.rows[k], a, b)
  }

  /** The round asks the backend and gets such an answer. */
  ghost predicate Spoilt(c: Ctx, e: Env, db: Db, maxWait: int) {
    exists id, k, a, b ::
      NextReady(db.rows, c.now, c.allowHeavy, maxWait) == Some(id) && Asks(c, e, db, id, k, a, b) && Unhelpful(e, a, b)
  }

  // ---------------------------------------------------------------- lowering the measure

  ghost function WeightAt(db: Db, now: Ts, i: RowId): nat
    requires i in db.rows
  {
    WeightOf(db.rows[i], Grouped(db, db.rows[i]), now)
  }

  /** Row `i` got no heavier, and if it needs a group there is one. */
  ghost predicate NoHeavier(db: Db, db': Db, now: Ts, i: RowId) {
    && i in db.rows && i in db'.rows
    && WeightAt(db', now, i) <= WeightAt(db, now, i)
    && (NeedsGroup(db'.rows[i]) ==> Grouped(db', db'.rows[i]))
  }

  /** A change of a few rows lowers the measure if none of them gets heavier and one gets lighter. */
  lemma TouchedLowers(db: Db, db': Db, now: Ts, id: RowId, touched: set<RowId>)
    requires HashedOk(db) && GroupsGrow(db, db') && db'.rows.Keys == db.rows.Keys
    requires forall i :: i in db.rows && i !in touched ==> db'.rows[i] == db.rows[i]
    requires forall i :: i in touched ==> NoHeavier(db, db', now, i)
    requires id in db.rows && id in touched && WeightAt(db', now, id) < WeightAt(db, now, id)
    ensures Lower(db, db', now)
  {
    forall i | i in db.rows ensures NoHeavier(db, db', now, i) {
      if i !in touched {
        if Grouped(db, db.rows[i]) { GroupedStays(db, db', db.rows[i]); }
      }
    }
    SumStrict(db.rows.Keys, Weight(db', now), Weight(db, now), id);
  }

  /** A transition that touches only its own row. */
  lemma MoveLowers(db: Db, cas: Cas, now: Ts)
    requires HashedOk(db) && CasHolds(db.rows, cas)
    requires var r, r' := db.rows[cas.id], PatchRow(db.rows[cas.id], cas, now);
      && WeightOf(r', Grouped(db, r'), now) < WeightOf(r, Grouped(db, r), now)
      && (NeedsGroup(r') ==> Grouped(db, r'))
    ensures var t := Transition(cas, now, None, []);
      Apply(db, t).Applied? && Lower(db, Apply(db, t).db, now)
  {
    var db' := Apply(db, Transition(cas, now, None, [])).db;
    assert db'.rows == db.rows[cas.id := PatchRow(db.rows[cas.id], cas, now)];
    var r' := db'.rows[cas.id];
    assert Grouped(db', r') == Grouped(db, r');
    TouchedLowers(db, db', now, cas.id, {cas.id});
  }

  /** The row ends in a state the worker never leaves; one that vanished remembers where it was. */
  ghost predicate Rests(cas: Cas) {
    || cas.to.Skipped? || cas.to.Failed? || cas.to.Canonical? || cas.to.Deduped?
    || (cas.to.Missing? && cas.patch.prev == Put(Some(cas.from))
        && cas.patch.sparse.Keep? && cas.patch.identity.Keep?)
  }

  /** The patch takes the row out of the due rows. */
  ghost predicate NotDueAfter(p: Patch, now: Ts) {
    p.readyAt.Put? && (p.readyAt.v.Some? ==> p.readyAt.v.value > now)
  }

  /** The row is left in a resting state, back in `settling`, or in its own state, and is not due. */
  ghost predicate Leaves(cas: Cas, now: Ts) {
    || Rests(cas)
    || (cas.to.Settling? && NotDueAfter(cas.patch, now))
    || (cas.to == cas.from && NotDueAfter(cas.patch, now)
        && cas.patch.sparse.Keep? && cas.patch.identity.Keep? && cas.patch.group.Keep?)
  }

  lemma LeavesLowers(db: Db, cas: Cas, now: Ts)
    requires HashedOk(db) && CasHolds(db.rows, cas)
    requires cas.from.Queued() && Due(db.rows[cas.id], now) && Leaves(cas, now)
    ensures var t := Transition(cas, now, None, []);
      Apply(db, t).Applied? && Lower(db, Apply(db, t).db, now)
  {
    MoveLowers(db, cas, now);
  }

  lemma RestInGroupDb(db: Db, cas: Cas, op: GroupOp, now: Ts)
    requires CasHolds(db.rows, cas) && GroupOpAllowed(db, cas.id, op)
    requires op.MarkVerified? || (op.SetCanonical? && op.file == cas.id) || (op.Create? && op.canonical == cas.id)
    ensures var a := Apply(db, Transition(cas, now, Some(op), []));
      && a.Applied? && a.db.rows.Keys == db.rows.Keys && GroupsGrow(db, a.db)
      && a.db.rows == db.rows[cas.id := a.db.rows[cas.id]]
      && var r, r' := PatchRow(db.rows[cas.id], cas, now), a.db.rows[cas.id];
         r'.state == r.state && r'.prev == r.prev && r'.sparse == r.sparse && r'.domain == r.domain && r'.size == r.size
  {
  }

  lemma RestedLowers(db: Db, db': Db, id: RowId, now: Ts)
    requires HashedOk(db) && GroupsGrow(db, db') && id in db.rows && db.rows[id].state.Queued() && Due(db.rows[id], now)
    requires id in db'.rows && db'.rows == db.rows[id := db'.rows[id]]
    requires !db'.rows[id].state.Queued() && !db'.rows[id].state.Distinct?
    requires NeedsGroup(db'.rows[id]) ==> Grouped(db, db'.rows[id])
    ensures Lower(db, db', now)
  {
    if NeedsGroup(db'.rows[id]) { GroupedStays(db, db', db'.rows[id]); }
    TouchedLowers(db, db', now, id, {id});
  }

  /** The row comes to rest and its group is marked or repointed. */
  lemma RestInGroupLowers(db: Db, cas: Cas, op: GroupOp, now: Ts)
    requires HashedOk(db) && CasHolds(db.rows, cas) && GroupOpAllowed(db, cas.id, op)
    requires cas.from.Queued() && Due(db.rows[cas.id], now)
    requires Rests(cas) || (cas.to.Verified? && cas.from.Hashed? && cas.patch.sparse.Keep?
                            && cas.patch.identity.Put? && cas.patch.identity.v.size == db.rows[cas.id].size)
    requires op.MarkVerified? || (op.SetCanonical? && op.file == cas.id) || (op.Create? && op.canonical == cas.id)
    ensures var t := Transition(cas, now, Some(op), []);
      Apply(db, t).Applied? && Lower(db, Apply(db, t).db, now)
  {
    RestInGroupDb(db, cas, op, now);
    var db' := Apply(db, Transition(cas, now, Some(op), [])).db;
    RestsGrouped(db, cas, now, db'.rows[cas.id]);
    RestedLowers(db, db', cas.id, now);
  }

  lemma RestsGrouped(db: Db, cas: Cas, now: Ts, r': Row)
    requires HashedOk(db) && CasHolds(db.rows, cas) && cas.from.Queued()
    requires Rests(cas) || (cas.to.Verified? && cas.from.Hashed? && cas.patch.sparse.Keep?
                            && cas.patch.identity.Put? && cas.patch.identity.v.size == db.rows[cas.id].size)
    requires var r := PatchRow(db.rows[cas.id], cas, now);
      r'.state == r.state && r'.prev == r.prev && r'.sparse == r.sparse && r'.domain == r.domain && r'.size == r.size
    ensures NeedsGroup(r') ==> Grouped(db, r')
    ensures !r'.state.Queued() && !r'.state.Distinct?
  {
  }

  /** A step that answers `s` for row `id` lowers the measure, or its transaction is refused. */
  ghost predicate Lowers(c: Ctx, db: Db, id: RowId, s: Stepped)
    requires id in db.rows
  {
    var a := Apply(db, Decide(c, id, db.rows[id], s));
    a.Refused? || Lower(db, a.db, c.now)
  }

  /** The row a round works on, in the given state. */
  ghost predicate Working(c: Ctx, db: Db, id: RowId, s: State) {
    && ClockOk(c) && HashedOk(db)
    && id in db.rows && db.rows[id].state == s && Due(db.rows[id], c.now)
  }

  lemma ErrLowers(c: Ctx, db: Db, id: RowId, err: StepError)
    requires id in db.rows && db.rows[id].state.Queued() && Working(c, db, id, db.rows[id].state)
    ensures Lowers(c, db, id, Err(err))
  {
    LeavesLowers(db, Fail(c, id, db.rows[id], err).main, c.now);
  }

  lemma DeferLowers(c: Ctx, db: Db, id: RowId, until: Ts)
    requires id in db.rows && db.rows[id].state.Queued() && Working(c, db, id, db.rows[id].state)
    requires until > c.now
    ensures Lowers(c, db, id, Ok(Defer(until)))
  {
    LeavesLowers(db, Postpone(c, id, db.rows[id], until).main, c.now);
  }

  /** A step that decides for its own row alone. */
  ghost predicate Alone(c: Ctx, id: RowId, s: Stepped) {
    && s.Ok? && s.value.Commit? && s.value.t == Transition(s.value.t.main, c.now, None, [])
    && s.value.t.main.id == id
  }

  /** The step fails, defers past `now`, or takes the row out of the due rows. */
  ghost predicate StepLeaves(c: Ctx, id: RowId, from: State, s: Stepped) {
    || s.Err?
    || (s.value.Defer? && s.value.until > c.now)
    || (Alone(c, id, s) && s.value.t.main.from == from && Leaves(s.value.t.main, c.now))
  }

  lemma StepLeavesLowers(c: Ctx, db: Db, id: RowId, s: Stepped)
    requires id in db.rows && db.rows[id].state.Queued() && Working(c, db, id, db.rows[id].state)
    requires StepLeaves(c, id, db.rows[id].state, s)
    ensures Lowers(c, db, id, s)
  {
    match s
    case Err(err) => ErrLowers(c, db, id, err);
    case Ok(Defer(until)) => DeferLowers(c, db, id, until);
    case Ok(Commit(t)) => LeavesLowers(db, t.main, c.now);
  }

  // ---------------------------------------------------------------- settling

  lemma SettlingShape(c: Ctx, e: Env, id: RowId, r: Row)
    requires ClockOk(c)
    ensures var s := SettleStep(c, e, id, r);
      || StepLeaves(c, id, Settling, s)
      || (&& Alone(c, id, s) && s.value.t.main.from.Settling? && s.value.t.main.to.Sized?
          && s.value.t.main.patch.readyAt == Put(Some(c.now)))
  {
  }

  lemma SettlingLowers(c: Ctx, e: Env, db: Db, id: RowId)
    requires Working(c, db, id, Settling)
    ensures Lowers(c, db, id, SettleStep(c, e, id, db.rows[id]))
  {
    var s := SettleStep(c, e, id, db.rows[id]);
    SettlingShape(c, e, id, db.rows[id]);
    if StepLeaves(c, id, Settling, s) { StepLeavesLowers(c, db, id, s); }
    else { MoveLowers(db, s.value.t.main, c.now); }
  }

  // ---------------------------------------------------------------- sized, without a hash

  lemma HashShape(c: Ctx, e: Env, id: RowId, r: Row)
    requires ClockOk(c) && r.state.Sized?
    ensures var s := ComputeHash(c, e, id, r);
      || StepLeaves(c, id, Sized, s)
      || (&& Alone(c, id, s) && s.value.t.main.from.Sized? && s.value.t.main.to.Sized?
          && s.value.t.main.patch.sparse.Put? && s.value.t.main.patch.sparse.v.Some?)
  {
  }

  /** A sized row without a hash leaves the queue or gets its hash. */
  lemma HashLowers(c: Ctx, e: Env, db: Db, id: RowId)
    requires Working(c, db, id, Sized) && db.rows[id].sparse.None?
    ensures Lowers(c, db, id, ComputeHash(c, e, id, db.rows[id]))
  {
    var s := ComputeHash(c, e, id, db.rows[id]);
    HashShape(c, e, id, db.rows[id]);
    if StepLeaves(c, id, Sized, s) { StepLeavesLowers(c, db, id, s); }
    else { MoveLowers(db, s.value.t.main, c.now); }
  }

  // ---------------------------------------------------------------- candidates

  lemma MendShape(c: Ctx, e: Env, db: Db, id: RowId, k: RowId)
    requires ClockOk(c) && id in db.rows && k in db.rows
    requires Backfill(c, e, db, id, k).Ok?
    ensures var o := Backfill(c, e, db, id, k).value;
      && o.Commit? && o.t == Transition(o.t.main, c.now, None, [o.t.others[0]])
      && o.t.main == Cas(id, Sized, Sized, Ready(Some(c.now)).(heavySince := Put(None)))
      && o.t.others[0].id == k && o.t.others[0].from == db.rows[k].state
      && (|| Rests(o.t.others[0]) || (o.t.others[0].to.Settling? && NotDueAfter(o.t.others[0].patch, c.now))
          || (&& o.t.others[0].to == db.rows[k].state
              && o.t.others[0].patch.sparse.Put? && o.t.others[0].patch.sparse.v.Some?
              && o.t.others[0].patch.readyAt.Keep?))
  {
  }

  /** One candidate was read: it gets lighter while the row itself waits for its next turn. */
  lemma BackfillLowers(c: Ctx, e: Env, db: Db, id: RowId, k: RowId)
    requires Working(c, db, id, Sized) && db.rows[id].sparse.Some? && k != id
    requires k in db.rows && (db.rows[k].state.Sized? || db.rows[k].state.Distinct?) && db.rows[k].sparse.None?
    ensures Lowers(c, db, id, Backfill(c, e, db, id, k))
  {
    match Backfill(c, e, db, id, k)
    case Err(err) => ErrLowers(c, db, id, err);
    case Ok(o) =>
      MendShape(c, e, db, id, k);
      ApplyPair(db, o.t.main, o.t.others[0], c.now);
      PairLowers(db, o.t.main, o.t.others[0], c.now);
  }

  lemma PairLowers(db: Db, main: Cas, mend: Cas, now: Ts)
    requires HashedOk(db) && CasHolds(db.rows, main) && CasHolds(db.rows, mend) && main.id != mend.id
    requires main == Cas(main.id, Sized, Sized, Ready(Some(now)).(heavySince := Put(None)))
    requires Due(db.rows[main.id], now) && db.rows[main.id].sparse.Some?
    requires (mend.from.Sized? || mend.from.Distinct?) && db.rows[mend.id].sparse.None?
    requires || Rests(mend) || (mend.to.Settling? && NotDueAfter(mend.patch, now))
             || (&& mend.to == mend.from && mend.patch.sparse.Put? && mend.patch.sparse.v.Some?
                 && mend.patch.readyAt.Keep?)
    ensures Lower(db, db.(rows := db.rows[main.id := PatchRow(db.rows[main.id], main, now)]
                                         [mend.id := PatchRow(db.rows[mend.id], mend, now)]), now)
  {
    var db' := db.(rows := db.rows[main.id := PatchRow(db.rows[main.id], main, now)]
                                  [mend.id := PatchRow(db.rows[mend.id], mend, now)]);
    TouchedLowers(db, db', now, mend.id, {main.id, mend.id});
  }

  // ---------------------------------------------------------------- a new group

  /** A sized or distinct row of the same key. */
  ghost predicate IsTwin(r: Row, t: Row, h: Hash) {
    && (t.state.Sized? || t.state.Distinct?)
    && t.sparse == Some(h) && t.domain == r.domain && t.size == r.size
  }

  /** The transition of `MakeGroup`, with the twins' moves given pointwise. */
  ghost predicate MakesGroup(c: Ctx, db: Db, id: RowId, twins: seq<RowId>, h: Hash, origin: RowId, t: Transition) {
    && t.main == MakeGroupMain(c, id, origin) && t.now == c.now
    && t.group == Some(Create(origin, h, HASH_VERSION))
    && |t.others| == |twins|
    && forall j :: 0 <= j < |twins| ==> twins[j] in db.rows && t.others[j] == TwinMove(c, db.rows, origin, twins[j])
  }

  ghost predicate TwinsOf(db: Db, id: RowId, twins: seq<RowId>, h: Hash, origin: RowId) {
    && id in db.rows && db.rows[id].state.Sized? && db.rows[id].sparse == Some(h)
    && id !in twins && NoRepeats(twins) && (origin == id || origin in twins)
    && forall t :: t in twins ==> t in db.rows && IsTwin(db.rows[id], db.rows[t], h)
  }

  /** Row `i` after the group is made: in it, moved to verification, or untouched. */
  ghost predicate NewGroupRow(c: Ctx, db: Db, id: RowId, twins: seq<RowId>, origin: RowId, i: RowId, r: Row)
    requires i in db.rows
  {
    var was := db.rows[i];
    if i == origin then r.state.Canonical? && r.group == Some(NextId(db.groups.Keys))
    else if i == id then
      && r.state.Hashed? && r.group == Some(NextId(db.groups.Keys))
      && r.sparse == was.sparse && r.domain == was.domain && r.size == was.size
    else if i in twins then
      && r.state.Hashed? && r.group == was.group
      && r.sparse == was.sparse && r.domain == was.domain && r.size == was.size
    else r == was
  }

  lemma TwinAt(c: Ctx, db: Db, id: RowId, twins: seq<RowId>, h: Hash, origin: RowId, t: Transition, i: RowId)
    requires TwinsOf(db, id, twins, h, origin) && MakesGroup(c, db, id, twins, h, origin, t)
    requires i in db.rows && i != id
    ensures var rows := CasAll(db.rows[id := PatchRow(db.rows[id], t.main, c.now)], t.others, c.now);
      && i in rows
      && rows[i] == if i in twins then PatchRow(db.rows[i], TwinMove(c, db.rows, origin, i), c.now) else db.rows[i]
  {
    var mid := db.rows[id := PatchRow(db.rows[id], t.main, c.now)];
    if i in twins {
      var j :| 0 <= j < |twins| && twins[j] == i;
      CasAllHit(mid, t.others, c.now, j);
    } else {
      CasAllMiss(mid, t.others, c.now, i);
    }
  }

  /** What creating a group does to the row, its twins and the groups. */
  lemma MakesGroupDb(c: Ctx, db: Db, id: RowId, twins: seq<RowId>, h: Hash, origin: RowId, t: Transition)
    requires TwinsOf(db, id, twins, h, origin) && MakesGroup(c, db, id, twins, h, origin, t)
    ensures var a := Apply(db, t);
      && a.Applied? && a.won && a.db.rows.Keys == db.rows.Keys
      && a.db.groups == db.groups[NextId(db.groups.Keys) :=
           Group(db.rows[id].domain, db.rows[id].size, h, HASH_VERSION, None, Some(origin), None, c.now)]
      && forall i :: i in db.rows ==> NewGroupRow(c, db, id, twins, origin, i, a.db.rows[i])
  {
    ApplyCreate(db, t.main, t.others, origin, h, HASH_VERSION, c.now);
    forall i | i in db.rows
      ensures NewGroupRow(c, db, id, twins, origin, i, Apply(db, t).db.rows[i])
    {
      if i != id { TwinAt(c, db, id, twins, h, origin, t, i); }
    }
  }

  lemma NewRowLighter(c: Ctx, db: Db, id: RowId, twins: seq<RowId>, h: Hash, origin: RowId, i: RowId, db': Db)
    requires TwinsOf(db, id, twins, h, origin) && !Grouped(db, db.rows[id])
    requires (i == id && Due(db.rows[id], c.now)) || i in twins
    requires i in db'.rows && NewGroupRow(c, db, id, twins, origin, i, db'.rows[i])
    requires GroupsByKey(db', db.rows[id].domain, db.rows[id].size, h) != {}
    ensures NoHeavier(db, db', c.now, i) && WeightAt(db', c.now, i) < WeightAt(db, c.now, i)
  {
    assert IsTwin(db.rows[id], db.rows[i], h);
  }

  lemma NewGroupLowers(c: Ctx, db: Db, db': Db, id: RowId, twins: seq<RowId>, h: Hash, origin: RowId)
    requires HashedOk(db) && TwinsOf(db, id, twins, h, origin)
    requires Due(db.rows[id], c.now) && !Grouped(db, db.rows[id])
    requires db'.rows.Keys == db.rows.Keys && GroupsGrow(db, db')
    requires GroupsByKey(db', db.rows[id].domain, db.rows[id].size, h) != {}
    requires forall i :: i in db.rows ==> NewGroupRow(c, db, id, twins, origin, i, db'.rows[i])
    ensures Lower(db, db', c.now)
  {
    var touched := {id} + set k | k in twins;
    forall i | i in touched ensures NoHeavier(db, db', c.now, i) && WeightAt(db', c.now, i) < WeightAt(db, c.now, i) {
      NewRowLighter(c, db, id, twins, h, origin, i, db');
    }
    TouchedLowers(db, db', c.now, id, touched);
  }

  lemma MakesGroupLowers(c: Ctx, db: Db, id: RowId, twins: seq<RowId>, h: Hash, origin: RowId, t: Transition)
    requires HashedOk(db)
    requires TwinsOf(db, id, twins, h, origin) && MakesGroup(c, db, id, twins, h, origin, t)
    requires Due(db.rows[id], c.now) && !Grouped(db, db.rows[id])
    ensures Apply(db, t).Applied? && Lower(db, Apply(db, t).db, c.now)
  {
    MakesGroupDb(c, db, id, twins, h, origin, t);
    var db' := Apply(db, t).db;
    assert NextId(db.groups.Keys) in GroupsByKey(db', db.rows[id].domain, db.rows[id].size, h);
    NewGroupLowers(c, db, db', id, twins, h, origin);
  }

  // ---------------------------------------------------------------- sized, with a hash

  ghost predicate HashedAlone(c: Ctx, db: Db, id: RowId, h: Hash) {
    Working(c, db, id, Sized) && db.rows[id].sparse == Some(h) && !Grouped(db, db.rows[id])
  }

  lemma AmongCandidatesLowers(c: Ctx, e: Env, db: Db, id: RowId, h: Hash, cands: seq<RowId>)
    requires HashedAlone(c, db, id, h) && NoRepeats(cands)
    requires forall k :: k in cands ==>
      && k in db.rows && k != id && (db.rows[k].state.Sized? || db.rows[k].state.Distinct?)
      && db.rows[k].domain == db.rows[id].domain && db.rows[k].size == db.rows[id].size
    ensures Lowers(c, db, id, AmongCandidates(c, e, db, id, h, cands))
  {
    match FirstUnhashed(db.rows, cands)
    case Some(k) =>
      if c.allowHeavy { BackfillLowers(c, e, db, id, k); } else { DeferLowers(c, db, id, HeavyLater(c)); }
    case None =>
      var twins := WithHash(db.rows, cands, h);
      if twins == [] {
        MoveLowers(db, Cas(id, Sized, Distinct, Ready(None)), c.now);
      } else {
        var t := MakeGroup(c, db, id, twins, h).value.t;
        MakesGroupLowers(c, db, id, twins, h, ChooseCanonical(db.rows, id, twins), t);
      }
  }

  lemma FindCandidatesLowers(c: Ctx, e: Env, db: Db, id: RowId, h: Hash)
    requires HashedAlone(c, db, id, h)
    ensures Lowers(c, db, id, FindCandidates(c, e, db, id, h))
  {
    match StillSettling(c, db, id)
    case Some(until) => DeferLowers(c, db, id, until);
    case None => AmongCandidatesLowers(c, e, db, id, h, SettledPeers(c, db, id));
  }

  lemma PlaceLowers(c: Ctx, e: Env, db: Db, id: RowId, h: Hash)
    requires Working(c, db, id, Sized) && db.rows[id].sparse == Some(h)
    ensures Lowers(c, db, id, PlaceInGroup(c, e, db, id, h))
  {
    var r := db.rows[id];
    match FirstGroup(db, r.domain, r.size, h)
    case None => FindCandidatesLowers(c, e, db, id, h);
    case Some(g) =>
      var s := PlaceInGroup(c, e, db, id, h);
      if Alone(c, id, s) {
        MoveLowers(db, s.value.t.main, c.now);
      } else {
        RestInGroupLowers(db, s.value.t.main, SetCanonical(g, id), c.now);
      }
  }

  lemma SizedLowers(c: Ctx, e: Env, db: Db, id: RowId)
    requires Working(c, db, id, Sized)
    ensures Lowers(c, db, id, SizedStep(c, e, db, id))
  {
    var r := db.rows[id];
    match r.sparse
    case None => HashLowers(c, e, db, id);
    case Some(h) =>
      match e.statx(r.loc)
      case Ok(i) =>
        if i.Print() == r.Print() { PlaceLowers(c, e, db, id, h); }
        else { StepLeavesLowers(c, db, id, BackToSettling(c, id, r)); }
      case Err(NotFound) => StepLeavesLowers(c, db, id, Vanish(id, Sized, c.now));
      case Err(OtherFs(text)) => ErrLowers(c, db, id, StepError(text));
  }

  // ---------------------------------------------------------------- hashed

  /** The hashed row moves on to a later group of its key: it has fewer groups left to try. */
  lemma HopLowers(c: Ctx, db: Db, id: RowId, g: GroupId, next: GroupId)
    requires Working(c, db, id, Hashed) && db.rows[id].group == Some(g)
    requires NextGroup(db, db.rows[id].domain, db.rows[id].size, HashOrZero(db.rows[id]), g) == Some(next)
    ensures Lowers(c, db, id, Move(id, Hashed, Hashed, Ready(Some(c.now)).(group := Put(Some(next))), c.now))
  {
    var cas := Cas(id, Hashed, Hashed, Ready(Some(c.now)).(group := Put(Some(next))));
    var r := PatchRow(db.rows[id], cas, c.now);
    var db' := db.(rows := db.rows[id := r]);
    assert Apply(db, Transition(cas, c.now, None, [])) == Applied(db', true);
    HopLower(db, db', c.now, id, g, next);
  }

  /** A row in place of another with a later group and no other change that matters. */
  lemma HopLower(db: Db, db': Db, now: Ts, id: RowId, g: GroupId, next: GroupId)
    requires HashedOk(db) && id in db.rows && db.rows[id].state.Hashed? && db.rows[id].group == Some(g)
    requires Due(db.rows[id], now)
    requires NextGroup(db, db.rows[id].domain, db.rows[id].size, HashOrZero(db.rows[id]), g) == Some(next)
    requires db'.groups == db.groups && id in db'.rows && db'.rows == db.rows[id := db'.rows[id]]
    requires db'.rows[id].state.Hashed? && db'.rows[id].group == Some(next)
    requires db'.rows[id].sparse == db.rows[id].sparse
    requires db'.rows[id].domain == db.rows[id].domain && db'.rows[id].size == db.rows[id].size
    ensures Lower(db, db', now)
  {
    HopShrinks(db, db', id, g, next);
    forall i | i in db.rows ensures NoHeavier(db, db', now, i) && (i != id ==> Tries(db')(i) == Tries(db)(i)) {
      HopRow(db, db', now, id, i);
    }
    LowerByTries(db, db', now, id);
  }

  /** Nothing gets heavier, and one row has fewer groups left to try. */
  lemma LowerByTries(db: Db, db': Db, now: Ts, id: RowId)
    requires db'.rows.Keys == db.rows.Keys && db'.groups == db.groups && id in db.rows
    requires forall i :: i in db.rows ==> NoHeavier(db, db', now, i) && (i != id ==> Tries(db')(i) == Tries(db)(i))
    requires Tries(db')(id) < Tries(db)(id)
    ensures Lower(db, db', now)
  {
    SumMonotone(db.rows.Keys, Weight(db', now), Weight(db, now));
    SumStrict(db.rows.Keys, Tries(db'), Tries(db), id);
  }

  lemma HopRow(db: Db, db': Db, now: Ts, id: RowId, i: RowId)
    requires HashedOk(db) && id in db.rows && db.rows[id].state.Hashed? && db.rows[id].group.Some?
             && Due(db.rows[id], now)
    requires db'.groups == db.groups && id in db'.rows && db'.rows == db.rows[id := db'.rows[id]]
    requires db'.rows[id].state.Hashed? && db'.rows[id].group.Some?
    requires db'.rows[id].sparse == db.rows[id].sparse
    requires db'.rows[id].domain == db.rows[id].domain && db'.rows[id].size == db.rows[id].size
    requires i in db.rows
    ensures NoHeavier(db, db', now, i) && (i != id ==> Tries(db')(i) == Tries(db)(i))
  {
    SameGroupsSame(db, db', i);
  }

  /** Groups that did not change serve a row, or one that looks like it, as before. */
  lemma SameGroupsSame(db: Db, db': Db, i: RowId)
    requires db'.groups == db.groups && i in db.rows && i in db'.rows
    requires db'.rows[i].sparse == db.rows[i].sparse
    requires db'.rows[i].domain == db.rows[i].domain && db'.rows[i].size == db.rows[i].size
    ensures Grouped(db', db'.rows[i]) == Grouped(db, db.rows[i])
    ensures db'.rows[i] == db.rows[i] ==> Tries(db')(i) == Tries(db)(i)
  {
    var r := db.rows[i];
    if r.sparse.Some? {
      assert GroupsByKey(db', r.domain, r.size, r.sparse.value) == GroupsByKey(db, r.domain, r.size, r.sparse.value);
    }
    if db'.rows[i] == r && r.group.Some? {
      assert LaterGroups(db', r, r.group.value) == LaterGroups(db, r, r.group.value);
    }
  }

  lemma HopShrinks(db: Db, db': Db, id: RowId, g: GroupId, next: GroupId)
    requires id in db.rows && db.rows[id].state.Hashed? && db.rows[id].group == Some(g)
    requires NextGroup(db, db.rows[id].domain, db.rows[id].size, HashOrZero(db.rows[id]), g) == Some(next)
    requires db'.groups == db.groups && id in db'.rows && db'.rows[id].state.Hashed?
    requires db'.rows[id].group == Some(next) && db'.rows[id].sparse == db.rows[id].sparse
    requires db'.rows[id].domain == db.rows[id].domain && db'.rows[id].size == db.rows[id].size
    ensures Tries(db')(id) < Tries(db)(id)
  {
    var before, after := LaterGroups(db, db.rows[id], g), LaterGroups(db', db'.rows[id], next);
    assert next in before && next !in after;
    assert after <= before - {next};
    SubsetSize(after, before - {next});
  }

  lemma DisagreeLowers(c: Ctx, db: Db, id: RowId, g: GroupId)
    requires Working(c, db, id, Hashed) && db.rows[id].group == Some(g)
    ensures Lowers(c, db, id, Disagree(c, db, id, g))
  {
    var r := db.rows[id];
    match NextGroup(db, r.domain, r.size, HashOrZero(r), g)
    case Some(next) => HopLowers(c, db, id, g, next);
    case None =>
      RestInGroupLowers(db, Cas(id, Hashed, Canonical, Ready(None).(group := Put(None))),
                        Create(id, HashOrZero(r), HASH_VERSION), c.now);
  }

  /** The tables after the old canonical left its role and the row took it. */
  lemma ReplaceDb(c: Ctx, db: Db, id: RowId, k: RowId, g: GroupId, to: State, p: Patch)
    requires id in db.rows && db.rows[id].state.Hashed? && g in db.groups && k in db.rows && k != id
    ensures var a := Apply(db, Replace(c, id, k, db.rows[k], g, to, p).value.t);
      && a.Applied? && GroupsGrow(db, a.db)
      && var r := PatchRow(db.rows[id], Cas(id, Hashed, Canonical, Ready(None)), c.now);
         a.db.rows == db.rows[id := r.(group := Some(g))]
                             [k := PatchRow(db.rows[k], Cas(k, db.rows[k].state, to, p), c.now)]
  {
    ApplyPair(db, Cas(id, Hashed, Canonical, Ready(None)), Cas(k, db.rows[k].state, to, p), c.now);
  }

  /** The old canonical leaves, the row takes its place: both come to rest. */
  lemma ReplaceLowers(c: Ctx, db: Db, id: RowId, k: RowId, g: GroupId, to: State, p: Patch)
    requires Working(c, db, id, Hashed) && g in db.groups && k in db.rows && k != id
    requires || (to.Missing? && p == Ready(None).(prev := Put(Some(db.rows[k].state))))
             || (to.Settling? && NotDueAfter(p, c.now))
    ensures Lowers(c, db, id, Replace(c, id, k, db.rows[k], g, to, p))
  {
    ReplaceDb(c, db, id, k, g, to, p);
    var t := Replace(c, id, k, db.rows[k], g, to, p).value.t;
    TouchedLowers(db, Apply(db, t).db, c.now, id, {id, k});
  }

  lemma DedupeErrorLowers(c: Ctx, db: Db, id: RowId, err: DedupeError)
    requires Working(c, db, id, Hashed)
    requires !PolicyOf(err).RetryNow? && !PolicyOf(err).PairImpossible?
    ensures Lowers(c, db, id, OnDedupeError(c, id, db.rows[id], err))
  {
    StepLeavesLowers(c, db, id, OnDedupeError(c, id, db.rows[id], err));
  }

  lemma VerifyPairLowers(c: Ctx, e: Env, db: Db, id: RowId, k: RowId, g: GroupId)
    requires Working(c, db, id, Hashed)
    requires db.rows[id].group == Some(g) && g in db.groups && k in db.rows && k != id
    requires forall a, b ::
      e.open(db.rows[k].loc) == Ok(a) && OpenDest(c, e, db.rows[id].loc) == Ok(b) ==> Helped(e, db, id, k, a, b)
    ensures Lowers(c, db, id, VerifyPair(c, e, db, id, k, g))
  {
    var r, canon := db.rows[id], db.rows[k];
    match e.open(canon.loc)
    case Err(NotFound) => ReplaceLowers(c, db, id, k, g, Missing, Ready(None).(prev := Put(Some(canon.state))));
    case Err(OtherFs(text)) => ErrLowers(c, db, id, StepError(text));
    case Ok(a) =>
      match OpenDest(c, e, r.loc)
      case Err(NotFound) => StepLeavesLowers(c, db, id, Vanish(id, Hashed, c.now));
      case Err(OtherFs(text)) => ErrLowers(c, db, id, StepError(text));
      case Ok(b) => OpenedPairLowers(c, e, db, id, k, g, a, b);
  }

  /** Whatever is asked of the backend about this pair, its answer is not unhelpful. */
  ghost predicate Helped(e: Env, db: Db, id: RowId, k: RowId, a: Opened, b: Opened)
    requires id in db.rows && k in db.rows
  {
    PassesChecks(db.rows[id], db.rows[k], a, b) ==> !Unhelpful(e, a, b)
  }

  lemma OpenedPairShape(c: Ctx, e: Env, db: Db, id: RowId, k: RowId, g: GroupId, a: Opened, b: Opened)
    requires Working(c, db, id, Hashed) && k in db.rows
    ensures var s := VerifyOpened(c, e, db, id, k, g, a, b);
      || StepLeaves(c, id, Hashed, s)
      || s == Replace(c, id, k, db.rows[k], g, Settling, Forget(c))
      || (s == Compared(c, e, db, id, g, a, b) && PassesChecks(db.rows[id], db.rows[k], a, b))
  {
  }

  lemma OpenedPairLowers(c: Ctx, e: Env, db: Db, id: RowId, k: RowId, g: GroupId, a: Opened, b: Opened)
    requires Working(c, db, id, Hashed)
    requires db.rows[id].group == Some(g) && g in db.groups && k in db.rows && k != id && Helped(e, db, id, k, a, b)
    ensures Lowers(c, db, id, VerifyOpened(c, e, db, id, k, g, a, b))
  {
    OpenedPairShape(c, e, db, id, k, g, a, b);
    ShapedPairLowers(c, e, db, id, k, g, a, b, VerifyOpened(c, e, db, id, k, g, a, b));
  }

  lemma ShapedPairLowers(c: Ctx, e: Env, db: Db, id: RowId, k: RowId, g: GroupId, a: Opened, b: Opened, s: Stepped)
    requires Working(c, db, id, Hashed)
    requires db.rows[id].group == Some(g) && g in db.groups && k in db.rows && k != id
    requires || StepLeaves(c, id, Hashed, s)
             || s == Replace(c, id, k, db.rows[k], g, Settling, Forget(c))
             || (&& s == Compared(c, e, db, id, g, a, b) && !Unhelpful(e, a, b)
                 && b.identity.size == db.rows[id].size)
    ensures Lowers(c, db, id, s)
  {
    if StepLeaves(c, id, Hashed, s) { StepLeavesLowers(c, db, id, s); }
    else if s == Replace(c, id, k, db.rows[k], g, Settling, Forget(c)) {
      ReplaceLowers(c, db, id, k, g, Settling, Forget(c));
    } else { ComparedLowers(c, e, db, id, g, a, b); }
  }

  lemma ComparedLowers(c: Ctx, e: Env, db: Db, id: RowId, g: GroupId, a: Opened, b: Opened)
    requires Working(c, db, id, Hashed) && !Unhelpful(e, a, b)
    requires db.rows[id].group == Some(g) && g in db.groups && b.identity.size == db.rows[id].size
    ensures Lowers(c, db, id, Compared(c, e, db, id, g, a, b))
  {
    match e.dedupe(a, b, b.identity.size)
    case Ok(Same(_)) =>
      var t := Agree(c, id, g, b.identity).value.t;
      RestInGroupLowers(db, t.main, MarkVerified(g, None), c.now);
    case Ok(Differs(_)) => DisagreeLowers(c, db, id, g);
    case Err(err) => DedupeErrorLowers(c, db, id, err);
  }

  lemma HashedLowers(c: Ctx, e: Env, db: Db, id: RowId)
    requires Working(c, db, id, Hashed)
    requires forall k, a, b :: Asks(c, e, db, id, k, a, b) ==> !Unhelpful(e, a, b)
    ensures Lowers(c, db, id, VerifyStep(c, e, db, id))
  {
    var r := db.rows[id];
    match r.group
    case None => MoveLowers(db, Cas(id, Hashed, Sized, Ready(Some(c.now))), c.now);
    case Some(g) =>
      var s := VerifyStep(c, e, db, id);
      if StepLeaves(c, id, Hashed, s) {
        StepLeavesLowers(c, db, id, s);
      } else if g in db.groups {
        match CanonicalMember(db, g)
        case None => RestInGroupLowers(db, s.value.t.main, SetCanonical(g, id), c.now);
        case Some(k) =>
          forall a, b | e.open(db.rows[k].loc) == Ok(a) && OpenDest(c, e, r.loc) == Ok(b)
            ensures Helped(e, db, id, k, a, b)
          {
            assert PassesChecks(r, db.rows[k], a, b) ==> Asks(c, e, db, id, k, a, b);
          }
          VerifyPairLowers(c, e, db, id, k, g);
      }
  }

  // ---------------------------------------------------------------- the drain

  /** Every round that works and is not spoilt lowers the measure, whatever the file system answers. */
  lemma RoundLowers(c: Ctx, e: Env, db: Db, maxWait: int)
    requires ClockOk(c) && HashedOk(db) && !Spoilt(c, e, db, maxWait)
    ensures var r := Round(c, e, db, maxWait); r.Worked? ==> Lower(db, r.db, c.now)
  {
    match NextReady(db.rows, c.now, c.allowHeavy, maxWait)
    case None =>
    case Some(id) =>
      match db.rows[id].state
      case Settling => SettlingLowers(c, e, db, id);
      case Sized => SizedLowers(c, e, db, id);
      case Hashed => HashedLowers(c, e, db, id);
  }
}
