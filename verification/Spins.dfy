/**
 * What the drain needs of the backend, exactly: a run ends unless answers that send a row round
 * once more never stop. And what a refused pair does on its next lap.
 */
module Spins {
  import opened Wrappers
  import opened Model
  import opened StoreSpec
  import opened Pipeline
  import opened Drain
  import opened Grouping
  import opened Reachable
  import opened Worker

  // ---------------------------------------------------------------- an unlimited run

  function NeverStop(): nat -> bool { _ => false }

  /** The run after at most `n` rounds. */
  function RunTo(c: Ctx, envs: nat -> Env, db: Db, maxWait: int, n: nat): RunResult {
    WorkerRun(c, envs, NeverStop(), db, 0, n, maxWait)
  }

  /** Round number `n` of the run gets an unhelpful answer. */
  ghost predicate SpoiltAt(c: Ctx, envs: nat -> Env, db: Db, maxWait: int, n: nat) {
    Spoilt(c, envs(n), RunTo(c, envs, db, maxWait, n).db, maxWait)
  }

  /** From round `n` on, no answer is unhelpful. */
  ghost predicate HelpedFrom(c: Ctx, envs: nat -> Env, db: Db, maxWait: int, n: nat) {
    forall k: nat :: k >= n ==> !SpoiltAt(c, envs, db, maxWait, k)
  }

  lemma {:induction false} OneMore(round: (nat, Db) -> RoundResult, stop: nat -> bool, db: Db, n: nat, limit: nat)
    requires n <= limit && forall k :: !stop(k)
    ensures var r, r' := Rounds(round, stop, db, n, limit), Rounds(round, stop, db, n, limit + 1);
      if r.ending.LimitReached? then
        r.rounds == limit
        && r' == match round(limit, r.db)
                 case QueueEmpty => RunResult(r.db, limit, QueueIsEmpty)
                 case RepoRefused => RunResult(r.db, limit, Refusal)
                 case Worked(db') => RunResult(db', limit + 1, LimitReached)
      else r' == r
    decreases limit - n
  {
    if n < limit {
      match round(n, db)
      case Worked(db') => OneMore(round, stop, db', n + 1, limit);
      case _ =>
    }
  }

  /** After any number of rounds the tables are sound, and the run is still going or its queue is empty. */
  lemma {:induction false} RunToOk(c: Ctx, envs: nat -> Env, db: Db, maxWait: int, n: nat)
    requires TablesOk(db)
    ensures var r := RunTo(c, envs, db, maxWait, n);
      && TablesOk(r.db) && (r.ending.LimitReached? || r.ending.QueueIsEmpty?)
      && (r.ending.QueueIsEmpty? ==> NextReady(r.db.rows, c.now, c.allowHeavy, maxWait).None?)
  {
    if n > 0 {
      RunToOk(c, envs, db, maxWait, n - 1);
      OneMore(RoundOf(c, envs, maxWait), NeverStop(), db, 0, n - 1);
      RoundTablesOk(c, envs(n - 1), RunTo(c, envs, db, maxWait, n - 1).db, maxWait);
    }
  }

  lemma {:induction false} EndsFrom(c: Ctx, envs: nat -> Env, db: Db, maxWait: int, n: nat) returns (last: nat)
    requires ClockOk(c) && TablesOk(db) && HelpedFrom(c, envs, db, maxWait, n)
    ensures RunTo(c, envs, db, maxWait, last).ending.QueueIsEmpty?
    decreases RoundBound(RunTo(c, envs, db, maxWait, n).db, c.now)
  {
    RunToOk(c, envs, db, maxWait, n);
    OneMore(RoundOf(c, envs, maxWait), NeverStop(), db, 0, n);
    var d := RunTo(c, envs, db, maxWait, n).db;
    assert !SpoiltAt(c, envs, db, maxWait, n);
    RoundDrains(c, envs(n), d, maxWait);
    if RunTo(c, envs, db, maxWait, n + 1).ending.QueueIsEmpty? { last := n + 1; }
    else { last := EndsFrom(c, envs, db, maxWait, n + 1); }
  }

  lemma {:induction false} StaysEnded(round: (nat, Db) -> RoundResult, stop: nat -> bool, db: Db, n: nat, k: nat)
    requires n <= k && (forall i :: !stop(i)) && !Rounds(round, stop, db, 0, n).ending.LimitReached?
    ensures Rounds(round, stop, db, 0, k) == Rounds(round, stop, db, 0, n)
  {
    if n < k {
      StaysEnded(round, stop, db, n, k - 1);
      OneMore(round, stop, db, 0, k - 1);
    }
  }

  /** At a fixed time an unlimited run empties its queue if and only if its unhelpful answers stop at some round. */
  lemma DrainsIffAnswersStop(c: Ctx, envs: nat -> Env, db: Db, maxWait: int)
    requires ClockOk(c) && TablesOk(db)
    ensures (exists n :: RunTo(c, envs, db, maxWait, n).ending.QueueIsEmpty?)
            <==> (exists n :: HelpedFrom(c, envs, db, maxWait, n))
  {
    if n: nat :| RunTo(c, envs, db, maxWait, n).ending.QueueIsEmpty? {
      RunToOk(c, envs, db, maxWait, n);
      forall k: nat | k >= n ensures !SpoiltAt(c, envs, db, maxWait, k) {
        StaysEnded(RoundOf(c, envs, maxWait), NeverStop(), db, n, k);
      }
      assert HelpedFrom(c, envs, db, maxWait, n);
    }
    if n: nat :| HelpedFrom(c, envs, db, maxWait, n) {
      var last := EndsFrom(c, envs, db, maxWait, n);
    }
  }

  // ---------------------------------------------------------------- a pair that is ruled out

  /** The round asks the backend about a pair, and the answer rules the pair out. */
  ghost predicate RuledOut(c: Ctx, e: Env, db: Db, maxWait: int, id: RowId, k: RowId, a: Opened, b: Opened) {
    && NextReady(db.rows, c.now, c.allowHeavy, maxWait) == Some(id) && Asks(c, e, db, id, k, a, b)
    && var r := e.dedupe(a, b, b.identity.size);
       r.Err? && PolicyOf(r.error).PairImpossible?
  }

  /** The row out of its group, back among the sized with its hash. */
  function SentBack(r: Row, now: Ts): Row {
    r.(state := Sized, group := None, skipReason := Some(Unsupported), readyAt := Some(now), heavySince := None,
       updated := now)
  }

  function WithRow(db: Db, id: RowId, r: Row): Db { db.(rows := db.rows[id := r]) }

  lemma AsksCompares(c: Ctx, e: Env, db: Db, id: RowId, k: RowId, a: Opened, b: Opened)
    requires Asks(c, e, db, id, k, a, b)
    ensures Step(c, e, db, id) == Compared(c, e, db, id, db.rows[id].group.value, a, b)
  {
  }

  /** Whatever the error that rules the pair out, and whatever the row was before. */
  lemma RuledOutIsSentBack(c: Ctx, e: Env, db: Db, maxWait: int, id: RowId, k: RowId, a: Opened, b: Opened)
    requires RuledOut(c, e, db, maxWait, id, k, a, b)
    ensures Round(c, e, db, maxWait) == Worked(WithRow(db, id, SentBack(db.rows[id], c.now)))
  {
    AsksCompares(c, e, db, id, k, a, b);
    var p := Ready(Some(c.now)).(group := Put(None), skipReason := Put(Some(Unsupported)));
    assert Step(c, e, db, id) == Move(id, Hashed, Sized, p, c.now);
    assert PatchRow(db.rows[id], Cas(id, Hashed, Sized, p), c.now) == SentBack(db.rows[id], c.now);
  }

  function Rejoin(c: Ctx, id: RowId, g: GroupId): Stepped {
    Move(id, Sized, Hashed, Ready(Some(c.now)).(group := Put(Some(g))), c.now)
  }

  predicate Founds(s: Stepped) {
    s.Ok? && s.value.Commit? && s.value.t.group.Some? && s.value.t.group.value.Create?
  }

  predicate SeenAs(e: Env, r: Row) {
    e.statx(r.loc).Ok? && e.statx(r.loc).value.Print() == r.Print()
  }

  /** A sized row for whose key there are groups: when it is put into group `g`; and it founds none. */
  lemma SizedRejoinsIff(c: Ctx, e: Env, db: Db, id: RowId, g: GroupId)
    requires id in db.rows && db.rows[id].state.Sized? && db.rows[id].sparse.Some? && g in db.groups
    requires FirstGroup(db, db.rows[id].domain, db.rows[id].size, db.rows[id].sparse.value).Some?
    ensures var r, k := db.rows[id], CanonicalMember(db, g);
      Step(c, e, db, id) == Rejoin(c, id, g)
      <==> (&& SeenAs(e, r) && FirstGroup(db, r.domain, r.size, r.sparse.value) == Some(g)
            && k.Some? && k.value != id && db.rows[k.value].Live())
    ensures !Founds(Step(c, e, db, id))
  {
  }

  /**
   * The source's table says that a row whose pair is ruled out founds a group of its own. It never does on its
   * next turn, whatever the file system answers then; it rejoins the very group it left, if and only if the file is
   * still seen as stored, that group is the first of the key, and its canonical row is on disk.
   */
  lemma RefusedPairRejoins(c: Ctx, e: Env, e': Env, db: Db, maxWait: int, id: RowId, k: RowId, a: Opened, b: Opened)
    requires TablesOk(db) && RuledOut(c, e, db, maxWait, id, k, a, b)
    ensures var r, r' := db.rows[id], SentBack(db.rows[id], c.now);
      var g, db' := r.group.value, WithRow(db, id, r');
      && r.sparse.Some? && Round(c, e, db, maxWait) == Worked(db')
      && !Founds(Step(c, e', db', id))
      && (Step(c, e', db', id) == Rejoin(c, id, g)
          <==> SeenAs(e', r) && FirstGroup(db, r.domain, r.size, r.sparse.value) == Some(g) && db.rows[k].Live())
  {
    var r := db.rows[id];
    var db' := WithRow(db, id, SentBack(r, c.now));
    RuledOutIsSentBack(c, e, db, maxWait, id, k, a, b);
    assert Grouped(db, r);
    assert GroupsByKey(db', r.domain, r.size, r.sparse.value) == GroupsByKey(db, r.domain, r.size, r.sparse.value);
    assert CanonicalMember(db', r.group.value) == Some(k);
    SizedRejoinsIff(c, e', db', id, r.group.value);
  }

  // ---------------------------------------------------------------- runs that never end

  function Always(e: Env): nat -> Env { _ => e }

  function Deferred(r: Row, now: Ts): Row { r.(readyAt := Some(now), updated := now) }

  /** The round asks the backend and is interrupted, and once deferred to now the row is next again. */
  ghost predicate Interrupted(c: Ctx, e: Env, db: Db, maxWait: int, id: RowId, k: RowId, a: Opened, b: Opened) {
    && NextReady(db.rows, c.now, c.allowHeavy, maxWait) == Some(id) && Asks(c, e, db, id, k, a, b)
    && e.dedupe(a, b, b.identity.size) == Err(Errno(EINTR))
    && NextReady(WithRow(db, id, Deferred(db.rows[id], c.now)).rows, c.now, c.allowHeavy, maxWait) == Some(id)
  }

  lemma InterruptedIsDeferred(c: Ctx, e: Env, db: Db, maxWait: int, id: RowId, k: RowId, a: Opened, b: Opened)
    requires Interrupted(c, e, db, maxWait, id, k, a, b)
    ensures var db' := WithRow(db, id, Deferred(db.rows[id], c.now));
      && Round(c, e, db, maxWait) == Worked(db') && WithRow(db', id, Deferred(db'.rows[id], c.now)) == db'
      && Interrupted(c, e, db', maxWait, id, k, a, b)
  {
    var r := db.rows[id];
    var db' := WithRow(db, id, Deferred(r, c.now));
    AsksCompares(c, e, db, id, k, a, b);
    assert Step(c, e, db, id) == Ok(Defer(c.now));
    assert PatchRow(r, Postpone(c, id, r, c.now).main, c.now) == Deferred(r, c.now);
    assert Deferred(Deferred(r, c.now), c.now) == Deferred(r, c.now);
    assert CanonicalMember(db', r.group.value) == CanonicalMember(db, r.group.value);
  }

  lemma {:induction false} Cycle(round: (nat, Db) -> RoundResult, stop: nat -> bool, db: Db, mid: Db, back: Db, n: nat)
    requires forall i :: !stop(i)
    requires forall i :: round(i, db) == Worked(mid) && round(i, mid) == Worked(back) && round(i, back) == Worked(mid)
    ensures Rounds(round, stop, db, 0, n)
            == RunResult(if n == 0 then db else if n % 2 == 1 then mid else back, n, LimitReached)
  {
    if n > 0 {
      Cycle(round, stop, db, mid, back, n - 1);
      OneMore(round, stop, db, 0, n - 1);
    }
  }

  /** With EINTR as the answer every time, the worker only stops at its round limit, whatever that is. */
  lemma EintrSpins(c: Ctx, e: Env, db: Db, maxWait: int, id: RowId, k: RowId, a: Opened, b: Opened, n: nat)
    requires Interrupted(c, e, db, maxWait, id, k, a, b)
    ensures RunTo(c, Always(e), db, maxWait, n)
            == RunResult(if n == 0 then db else WithRow(db, id, Deferred(db.rows[id], c.now)), n, LimitReached)
  {
    var db' := WithRow(db, id, Deferred(db.rows[id], c.now));
    InterruptedIsDeferred(c, e, db, maxWait, id, k, a, b);
    InterruptedIsDeferred(c, e, db', maxWait, id, k, a, b);
    Cycle(RoundOf(c, Always(e), maxWait), NeverStop(), db, db', db', n);
  }

  /** The pair is ruled out, the row rejoins, and on each of its turns it is next. */
  ghost predicate RuledOutAgain(c: Ctx, e: Env, db: Db, maxWait: int, id: RowId, k: RowId, a: Opened, b: Opened) {
    && RuledOut(c, e, db, maxWait, id, k, a, b)
    && var r := db.rows[id];
       && SeenAs(e, r) && db.rows[k].Live() && r.sparse.Some?
       && FirstGroup(db, r.domain, r.size, r.sparse.value) == r.group
       && NextReady(WithRow(db, id, SentBack(r, c.now)).rows, c.now, c.allowHeavy, maxWait) == Some(id)
  }

  /** The row back in its group after two rounds. */
  function BackInGroup(r: Row, now: Ts): Row { SentBack(r, now).(state := Hashed, group := r.group) }

  /** A row that stays due at the same rank keeps its place in the queue. */
  lemma SameNext(rows: map<RowId, Row>, id: RowId, r: Row, now: Ts, allowHeavy: bool, maxWait: int)
    requires NextReady(rows, now, allowHeavy, maxWait) == Some(id)
    requires IsDue(r, now, allowHeavy, maxWait) && r.priority == rows[id].priority && r.readyAt == rows[id].readyAt
    ensures NextReady(rows[id := r], now, allowHeavy, maxWait) == Some(id)
  {
    assert DueRanks(rows[id := r], now, allowHeavy, maxWait) == DueRanks(rows, now, allowHeavy, maxWait);
  }

  lemma LapOut(c: Ctx, e: Env, db: Db, maxWait: int, id: RowId, k: RowId, a: Opened, b: Opened)
    requires RuledOutAgain(c, e, db, maxWait, id, k, a, b)
    ensures var mid := WithRow(db, id, SentBack(db.rows[id], c.now));
      var back := WithRow(db, id, BackInGroup(db.rows[id], c.now));
      Round(c, e, mid, maxWait) == Worked(back)
  {
    var r := db.rows[id];
    var g := r.group.value;
    var mid := WithRow(db, id, SentBack(r, c.now));
    assert GroupsByKey(mid, r.domain, r.size, r.sparse.value) == GroupsByKey(db, r.domain, r.size, r.sparse.value);
    assert CanonicalMember(mid, g) == Some(k);
    SizedRejoinsIff(c, e, mid, id, g);
    assert PatchRow(SentBack(r, c.now), Rejoin(c, id, g).value.t.main, c.now) == BackInGroup(r, c.now);
    assert WithRow(mid, id, BackInGroup(r, c.now)) == WithRow(db, id, BackInGroup(r, c.now));
  }

  lemma BackIsRuledOut(c: Ctx, e: Env, db: Db, maxWait: int, id: RowId, k: RowId, a: Opened, b: Opened)
    requires RuledOutAgain(c, e, db, maxWait, id, k, a, b)
    ensures RuledOut(c, e, WithRow(db, id, BackInGroup(db.rows[id], c.now)), maxWait, id, k, a, b)
  {
    var r := db.rows[id];
    var mid, back := WithRow(db, id, SentBack(r, c.now)), WithRow(db, id, BackInGroup(r, c.now));
    assert mid.rows[id := BackInGroup(r, c.now)] == back.rows;
    SameNext(mid.rows, id, BackInGroup(r, c.now), c.now, c.allowHeavy, maxWait);
    assert CanonicalMember(back, r.group.value) == Some(k);
  }

  lemma LapBack(c: Ctx, e: Env, db: Db, maxWait: int, id: RowId, k: RowId, a: Opened, b: Opened)
    requires id in db.rows && RuledOut(c, e, WithRow(db, id, BackInGroup(db.rows[id], c.now)), maxWait, id, k, a, b)
    ensures Round(c, e, WithRow(db, id, BackInGroup(db.rows[id], c.now)), maxWait)
            == Worked(WithRow(db, id, SentBack(db.rows[id], c.now)))
  {
    var r := db.rows[id];
    RuledOutIsSentBack(c, e, WithRow(db, id, BackInGroup(r, c.now)), maxWait, id, k, a, b);
    assert SentBack(BackInGroup(r, c.now), c.now) == SentBack(r, c.now);
    assert db.rows[id := BackInGroup(r, c.now)][id := SentBack(r, c.now)] == db.rows[id := SentBack(r, c.now)];
  }

  /** With the pair ruled out every time, the row goes round and round, and the worker only stops at its limit. */
  lemma RefusedPairSpins(c: Ctx, e: Env, db: Db, maxWait: int, id: RowId, k: RowId, a: Opened, b: Opened, n: nat)
    requires RuledOutAgain(c, e, db, maxWait, id, k, a, b)
    ensures var mid := WithRow(db, id, SentBack(db.rows[id], c.now));
      var back := WithRow(db, id, BackInGroup(db.rows[id], c.now));
      RunTo(c, Always(e), db, maxWait, n)
      == RunResult(if n == 0 then db else if n % 2 == 1 then mid else back, n, LimitReached)
  {
    var mid, back := WithRow(db, id, SentBack(db.rows[id], c.now)), WithRow(db, id, BackInGroup(db.rows[id], c.now));
    RuledOutIsSentBack(c, e, db, maxWait, id, k, a, b);
    LapOut(c, e, db, maxWait, id, k, a, b);
    BackIsRuledOut(c, e, db, maxWait, id, k, a, b);
    LapBack(c, e, db, maxWait, id, k, a, b);
    Cycle(RoundOf(c, Always(e), maxWait), NeverStop(), db, mid, back, n);
  }
}
