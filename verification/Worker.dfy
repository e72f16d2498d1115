/** The worker loop: rounds until the queue is empty, a stop is asked for, or the limit is reached. */
module Worker {
  import opened Model
  import opened Selection
  import opened StoreSpec
  import opened Pipeline
  import opened Sums
  import opened Drain
  import opened Reachable
  import opened Store

  datatype Ending = QueueIsEmpty | StopAsked | LimitReached | Refusal

  datatype RunResult = RunResult(db: Db, rounds: nat, ending: Ending)

  /** Rounds from number `n` on, until one finds nothing to do. */
  function Rounds(round: (nat, Db) -> RoundResult, stop: nat -> bool, db: Db, n: nat, limit: nat): RunResult
    decreases limit - n
  {
    if n >= limit then RunResult(db, n, LimitReached)
    else if stop(n) then RunResult(db, n, StopAsked)
    else
      match round(n, db)
      case QueueEmpty => RunResult(db, n, QueueIsEmpty)
      case RepoRefused => RunResult(db, n, Refusal)
      case Worked(db') => Rounds(round, stop, db', n + 1, limit)
  }

  /** Round `n` sees the file system `envs(n)`. */
  function RoundOf(c: Ctx, envs: nat -> Env, maxWait: int): (nat, Db) -> RoundResult {
    (n: nat, db: Db) => Round(c, envs(n), db, maxWait)
  }

  function WorkerRun(c: Ctx, envs: nat -> Env, stop: nat -> bool, db: Db, n: nat, limit: nat, maxWait: int): RunResult {
    Rounds(RoundOf(c, envs, maxWait), stop, db, n, limit)
  }

  datatype Progress = DidWork | NothingDue | WasRefused

  /** One round: take the next due row, run its step, write what the step decided. */
  method WorkOnce(repo: Repository, c: Ctx, e: Env, maxWait: int) returns (p: Progress)
    modifies repo`rows, repo`groups
    ensures match Round(c, e, old(repo.Tables()), maxWait)
            case QueueEmpty => p == NothingDue && repo.Tables() == old(repo.Tables())
            case RepoRefused => p == WasRefused && repo.Tables() == old(repo.Tables())
            case Worked(db) => p == DidWork && repo.Tables() == db
  {
    var next := repo.TakeNext(c.now, c.allowHeavy, maxWait);
    if next.None? {
      return NothingDue;
    }
    var id := next.value;
    var won := repo.ApplyTransition(Decide(c, id, repo.rows[id], Step(c, e, Db(repo.rows, repo.groups), id)));
    p := if won.None? then WasRefused else DidWork;
  }

  method RunWorker(repo: Repository, c: Ctx, envs: nat -> Env, stop: nat -> bool, limit: nat, maxWait: int)
    returns (n: nat, ending: Ending)
    modifies repo`rows, repo`groups
    ensures RunResult(repo.Tables(), n, ending) == WorkerRun(c, envs, stop, old(repo.Tables()), 0, limit, maxWait)
  {
    ghost var round := RoundOf(c, envs, maxWait);
    n := 0;
    ending := LimitReached;
    while n < limit
      invariant 0 <= n <= limit && ending == LimitReached
      invariant Rounds(round, stop, repo.Tables(), n, limit) == Rounds(round, stop, old(repo.Tables()), 0, limit)
    {
      if stop(n) {
        return n, StopAsked;
      }
      ghost var r := round(n, repo.Tables());
      var p := WorkOnce(repo, c, envs(n), maxWait);
      match p {
        case DidWork => n := n + 1;
        case NothingDue => return n, QueueIsEmpty;
        case WasRefused => return n, Refusal;
      }
    }
  }

  /** An upper bound on the rounds a drain takes, from the sizes of the tables alone. */
  ghost function RoundBound(db: Db, now: Ts): nat {
    Bound(|db.rows.Keys|, |db.groups.Keys|, TotalWeight(db, now), TotalTries(db))
  }

  ghost function Bound(n: nat, g: nat, w: nat, t: nat): nat {
    Product(w, 1 + Product(n, g + w)) + t
  }

  ghost function Product(a: nat, b: nat): nat {
    if a == 0 then 0 else b + Product(a - 1, b)
  }

  lemma ProductMonotone(a: nat, b: nat, a': nat, b': nat)
    requires a <= a' && b <= b'
    ensures Product(a, b) <= Product(a', b')
  {
    if a > 0 { ProductMonotone(a - 1, b, a' - 1, b'); }
  }

  lemma ProductIsTimes(a: nat, b: nat)
    ensures Product(a, b) == a * b
  {
    if a > 0 { ProductIsTimes(a - 1, b); }
  }

  lemma {:induction false} SumAtMost<T(!new)>(s: set<T>, f: T -> nat, most: nat)
    requires forall x :: x in s ==> f(x) <= most
    ensures Sum(s, f) <= Product(|s|, most)
  {
    if s != {} {
      var x :| x in s;
      SumOne(s, f, x);
      SumAtMost(s - {x}, f, most);
      assert |s - {x}| == |s| - 1;
    }
  }

  lemma TriesAtMost(db: Db)
    ensures TotalTries(db) <= Product(|db.rows.Keys|, |db.groups.Keys|)
  {
    forall i | i in db.rows.Keys ensures Tries(db)(i) <= |db.groups.Keys| {
      var r := db.rows[i];
      if r.state.Hashed? && r.group.Some? { SubsetSize(LaterGroups(db, r, r.group.value), db.groups.Keys); }
    }
    SumAtMost(db.rows.Keys, Tries(db), |db.groups.Keys|);
  }

  lemma WeightAtMost(db: Db, now: Ts)
    ensures TotalWeight(db, now) <= 12 * |db.rows.Keys|
  {
    SumAtMost(db.rows.Keys, Weight(db, now), 12);
    ProductIsTimes(|db.rows.Keys|, 12);
  }

  /** A transition adds at most one group. */
  lemma OneGroupAtMost(db: Db, t: Transition)
    ensures Apply(db, t).Applied? ==> |Apply(db, t).db.groups.Keys| <= |db.groups.Keys| + 1
  {
    var a := Apply(db, t);
    if a.Applied? && t.group.Some? && t.group.value.Create? {
      assert a.db.groups.Keys <= db.groups.Keys + {NextId(db.groups.Keys)};
      SubsetSize(a.db.groups.Keys, db.groups.Keys + {NextId(db.groups.Keys)});
    } else if a.Applied? {
      assert a.db.groups.Keys == db.groups.Keys;
    }
  }

  /** The bound goes down with every round. */
  lemma BoundLowers(db: Db, db': Db, now: Ts)
    requires Lower(db, db', now) && |db'.groups.Keys| <= |db.groups.Keys| + 1
    ensures RoundBound(db', now) < RoundBound(db, now)
  {
    TriesAtMost(db');
    Descent(|db.rows.Keys|, |db.groups.Keys|, TotalWeight(db, now), TotalTries(db),
            |db'.groups.Keys|, TotalWeight(db', now), TotalTries(db'));
  }

  lemma Descent(n: nat, g: nat, w: nat, t: nat, g': nat, w': nat, t': nat)
    requires t' <= Product(n, g')
    requires (w' < w && g' <= g + 1) || (w' == w && t' < t && g' == g)
    ensures Bound(n, g', w', t') < Bound(n, g, w, t)
  {
    if w' < w { BoundArithmetic(n, g, w, t, g', w', t'); }
  }

  lemma BoundArithmetic(n: nat, g: nat, w: nat, t: nat, g': nat, w': nat, t': nat)
    requires w' < w && g' <= g + 1 && t' <= Product(n, g')
    ensures Bound(n, g', w', t') < Bound(n, g, w, t)
  {
    var k := 1 + Product(n, g + w);
    ProductMonotone(n, g' + w', n, g + w);
    ProductMonotone(w', 1 + Product(n, g' + w'), w - 1, k);
    ProductMonotone(n, g', n, g + w);
  }

  /** One round, as far as the drain is concerned. */
  lemma RoundDrains(c: Ctx, e: Env, db: Db, maxWait: int)
    requires ClockOk(c) && TablesOk(db) && !Spoilt(c, e, db, maxWait)
    ensures var r := Round(c, e, db, maxWait);
      !r.RepoRefused? && (r.Worked? ==> TablesOk(r.db) && RoundBound(r.db, c.now) < RoundBound(db, c.now))
  {
    var r := Round(c, e, db, maxWait);
    RoundTablesOk(c, e, db, maxWait);
    RoundLowers(c, e, db, maxWait);
    if r.Worked? {
      var id := NextReady(db.rows, c.now, c.allowHeavy, maxWait).value;
      OneGroupAtMost(db, Decide(c, id, db.rows[id], Step(c, e, db, id)));
      BoundLowers(db, r.db, c.now);
    }
  }

  /** A round on good tables is never refused, leaves good tables, and lowers the bound. */
  ghost predicate Descends(round: (nat, Db) -> RoundResult, good: Db -> bool, bound: Db -> nat) {
    forall k, d :: good(d) ==>
      !round(k, d).RepoRefused? && (round(k, d).Worked? ==> good(round(k, d).db) && bound(round(k, d).db) < bound(d))
  }

  lemma {:induction false} RoundsEnd(round: (nat, Db) -> RoundResult, good: Db -> bool, bound: Db -> nat,
                                     stop: nat -> bool, db: Db, n: nat, limit: nat, last: nat)
    requires Descends(round, good, bound) && good(db) && forall k :: !stop(k)
    requires n + bound(db) <= last < limit
    ensures var r := Rounds(round, stop, db, n, limit);
      r.ending == QueueIsEmpty && r.rounds <= last && good(r.db) && round(r.rounds, r.db).QueueEmpty?
    decreases bound(db)
  {
    if round(n, db).Worked? { RoundsEnd(round, good, bound, stop, round(n, db).db, n + 1, limit, last); }
  }

  ghost function BoundAt(now: Ts): Db -> nat { db => RoundBound(db, now) }

  ghost function Good(): Db -> bool { db => TablesOk(db) }

  lemma WorkerDescends(c: Ctx, envs: nat -> Env, maxWait: int)
    requires ClockOk(c) && forall k :: DeduperOk(envs(k))
    ensures Descends(RoundOf(c, envs, maxWait), Good(), BoundAt(c.now))
  {
    forall k: nat, d: Db | TablesOk(d)
      ensures var r := Round(c, envs(k), d, maxWait);
        !r.RepoRefused? && (r.Worked? ==> TablesOk(r.db) && RoundBound(r.db, c.now) < RoundBound(d, c.now))
    {
      RoundDrains(c, envs(k), d, maxWait);
    }
  }

  /**
   * At a fixed time, the worker empties its queue within the bound, whatever the file
   * system answers in each round, and then no row is due.
   */
  lemma WorkerDrains(c: Ctx, envs: nat -> Env, stop: nat -> bool, db: Db, n: nat, limit: nat, maxWait: int)
    requires ClockOk(c) && TablesOk(db) && forall k :: DeduperOk(envs(k)) && !stop(k)
    requires limit > n + RoundBound(db, c.now)
    ensures var r := WorkerRun(c, envs, stop, db, n, limit, maxWait);
      && r.ending == QueueIsEmpty && r.rounds <= n + RoundBound(db, c.now)
      && TablesOk(r.db)
      && forall i :: i in r.db.rows ==> !IsDue(r.db.rows[i], c.now, c.allowHeavy, maxWait)
  {
    WorkerDescends(c, envs, maxWait);
    RoundsEnd(RoundOf(c, envs, maxWait), Good(), BoundAt(c.now), stop, db, n, limit, n + RoundBound(db, c.now));
    var r := WorkerRun(c, envs, stop, db, n, limit, maxWait);
    EmptyMeansNothingDue(c, envs(r.rounds), r.db, maxWait);
  }

  lemma EmptyMeansNothingDue(c: Ctx, e: Env, db: Db, maxWait: int)
    ensures Round(c, e, db, maxWait).QueueEmpty? <==>
      forall i :: i in db.rows ==> !IsDue(db.rows[i], c.now, c.allowHeavy, maxWait)
  {
  }

  /** In numbers: with `n` rows and `g` groups, a drain takes at most `12n(1 + n(g + 12n)) + ng` rounds. */
  lemma RoundBoundInNumbers(db: Db, now: Ts)
    ensures var n, g := |db.rows.Keys|, |db.groups.Keys|;
      RoundBound(db, now) <= 12 * n * (1 + n * (g + 12 * n)) + n * g
  {
    WeightAtMost(db, now);
    TriesAtMost(db);
    var w, m, n, g := TotalWeight(db, now), 12 * |db.rows.Keys|, |db.rows.Keys|, |db.groups.Keys|;
    ProductMonotone(n, g + w, n, g + m);
    ProductMonotone(w, 1 + Product(n, g + w), m, 1 + Product(n, g + m));
    ProductIsTimes(m, 1 + Product(n, g + m));
    ProductIsTimes(n, g + m);
    ProductIsTimes(n, g);
  }
}
