/**
 * A run that ends in the alarm about different sizes, without any fault below the daemon: three
 * equal files on three shares, two of them lost from disk and found again while their group lives on.
 */
module Orphan {
  import opened Wrappers
  import opened Model
  import opened Selection
  import opened StoreSpec
  import opened Pipeline
  import opened Operations
  import opened Grouping
  import opened Drain
  import opened Reachable
  import opened Filed
  import opened Spins
  import opened MarkedTables

  // ---------------------------------------------------------------- the run

  const NEW := Mark(Sized, None, true, 10, None, None)
  const READ := NEW.(hash := Some(H))
  const G1: Option<GroupId> := Some(Id(1))
  const WAITING := Mark(Hashed, None, true, 10, Some(H), G1)
  const ORIGIN := Mark(Canonical, None, false, 10, Some(H), G1)
  const MISSED := ORIGIN.(state := Missing, prev := Some(Canonical))
  const LOST := MISSED.(prev := Some(Missing))
  const BACK := LOST.(state := Settling, waits := true)
  const GROWN := BACK.(state := Sized, size := 20)
  const ALONE := GROWN.(state := Distinct, waits := false)
  const STALE := GROWN.(state := Hashed)
  const FOUNDER := GROWN.(state := Canonical, waits := false, group := Some(Id(2)))

  /** Two equal files: the older one is the origin of their group, the other waits to be compared with it. */
  const TWO := Marks([WAITING, ORIGIN], [(10, 2)])

  /** The origin is lost. */
  const DESERTED := Marks([WAITING, MISSED], [(10, 2)])

  /** A row that waits in its old group, whose canonical file has another size. */
  const CROSSED := Marks([STALE, FOUNDER, ORIGIN], [(10, 3), (20, 2)])

  ghost predicate Closed(comes: Marks -> bool) {
    forall s, a :: comes(s) && Can(s, a) ==> comes(Do(s, a))
  }

  ghost predicate Leads(s: Marks, a: Act, s': Marks) {
    Can(s, a) && Do(s, a) == s'
  }

  lemma ComesNext(comes: Marks -> bool, s: Marks, a: Act, s': Marks)
    requires Closed(comes) && comes(s) && Leads(s, a, s')
    ensures comes(s')
  {
    assert Can(s, a);
  }

  lemma TwoFiles(comes: Marks -> bool)
    requires Closed(comes) && comes(Marks([], []))
    ensures comes(TWO) && comes(DESERTED)
  {
    ComesNext(comes, Marks([], []), Find(10), Marks([NEW], []));
    ComesNext(comes, Marks([NEW], []), Find(10), Marks([NEW, NEW], []));
    ComesNext(comes, Marks([NEW, NEW], []), Read(1, [10, 10]), Marks([READ, NEW], []));
    ComesNext(comes, Marks([READ, NEW], []), ReadTwin(1, 2, [10, 10]), Marks([READ, READ], []));
    ComesNext(comes, Marks([READ, READ], []), Found(1, 2, [10, 10]), TWO);
    ComesNext(comes, TWO, Lose(2), DESERTED);
  }

  const GB: seq<(nat, int)> := [(10, 1)]
  const GC: seq<(nat, int)> := [(10, 3)]

  /** The other file takes over, and the lost row forgets that it was canonical. A third equal file joins the group. */
  lemma ThirdJoins(comes: Marks -> bool)
    requires Closed(comes) && comes(DESERTED)
    ensures comes(Marks([ORIGIN, LOST, WAITING], GB))
  {
    ComesNext(comes, DESERTED, TakeOver(1, 2, 1, [10, 0]), Marks([ORIGIN, LOST], GB));
    ComesNext(comes, Marks([ORIGIN, LOST], GB), Act.Find(10), Marks([ORIGIN, LOST, NEW], GB));
    ComesNext(comes, Marks([ORIGIN, LOST, NEW], GB), Read(3, [10, 0, 10]), Marks([ORIGIN, LOST, READ], GB));
    ComesNext(comes, Marks([ORIGIN, LOST, READ], GB), Act.Join(3, 1, [10, 0, 10]), Marks([ORIGIN, LOST, WAITING], GB));
  }

  /** The second origin is lost as well, and the third file takes over. */
  lemma TwoLost(comes: Marks -> bool)
    requires Closed(comes) && comes(Marks([ORIGIN, LOST, WAITING], GB))
    ensures comes(Marks([LOST, LOST, ORIGIN], GC))
  {
    ComesNext(comes, Marks([ORIGIN, LOST, WAITING], GB), Lose(1), Marks([MISSED, LOST, WAITING], GB));
    ComesNext(comes, Marks([MISSED, LOST, WAITING], GB), TakeOver(3, 1, 1, [0, 0, 10]),
              Marks([LOST, LOST, ORIGIN], GC));
  }

  /** Both are found again as they were, and settle anew with their old group and hash; both grow meanwhile. */
  lemma BothGrow(comes: Marks -> bool)
    requires Closed(comes) && comes(Marks([LOST, LOST, ORIGIN], GC))
    ensures comes(Marks([ALONE, GROWN, ORIGIN], GC))
  {
    ComesNext(comes, Marks([LOST, LOST, ORIGIN], GC), FindAgain(1), Marks([BACK, LOST, ORIGIN], GC));
    ComesNext(comes, Marks([BACK, LOST, ORIGIN], GC), FindAgain(2), Marks([BACK, BACK, ORIGIN], GC));
    ComesNext(comes, Marks([BACK, BACK, ORIGIN], GC), Grow(1, [10, 10, 10], [20, 20, 10]),
              Marks([GROWN, BACK, ORIGIN], GC));
    ComesNext(comes, Marks([GROWN, BACK, ORIGIN], GC), FindNobody(1, [20, 20, 10]), Marks([ALONE, BACK, ORIGIN], GC));
    ComesNext(comes, Marks([ALONE, BACK, ORIGIN], GC), Grow(2, [20, 10, 10], [20, 20, 10]),
              Marks([ALONE, GROWN, ORIGIN], GC));
  }

  /** With that hash they found a group, and the twin keeps the group it had. */
  lemma TwinCrossed(comes: Marks -> bool)
    requires Closed(comes) && comes(Marks([ALONE, GROWN, ORIGIN], GC))
    ensures comes(CROSSED)
  {
    ComesNext(comes, Marks([ALONE, GROWN, ORIGIN], GC), Found(2, 1, [20, 20, 10]), CROSSED);
  }

  /** All these tables are reachable. */
  lemma Story()
    ensures Comes(TWO) && Comes(DESERTED) && Comes(CROSSED)
  {
    var comes: Marks -> bool := (s: Marks) => Comes(s);
    StartComes();
    ComesClosed(comes);
    TwoFiles(comes);
    ThirdJoins(comes);
    TwoLost(comes);
    BothGrow(comes);
    TwinCrossed(comes);
  }

  lemma ComesClosed(comes: Marks -> bool)
    requires comes == ((s: Marks) => Comes(s))
    ensures Closed(comes)
  {
    forall s, a | Comes(s) && Can(s, a) ensures Comes(Do(s, a)) { ActComes(s, a); }
  }

  lemma StartComes()
    ensures Comes(Marks([], []))
  {
    assert Run(EMPTY, []) == EMPTY;
    assert IsReachable(EMPTY) && Table(EMPTY, [], []);
  }

  // ---------------------------------------------------------------- what it leads to

  lemma DesertedOrphaned(db: Db)
    requires Table(db, DESERTED.ms, DESERTED.gs)
    ensures Orphaned(CTX, Still([10, 0]), db, Id(1)) && NextReady(db.rows, NOW, true, 0) == Some(Id(1))
  {
    assert FirstDue(DESERTED.ms, 1) && Deserted(DESERTED.ms, DESERTED.gs, 1, 2, 1);
    WaitsIn(db, DESERTED.ms, DESERTED.gs, 1, 2, 1);
    WaitsOrphaned(Still([10, 0]), db, 1, 2, 1, WAITING, MISSED);
  }

  lemma DesertedFiled(db: Db)
    requires Table(db, DESERTED.ms, DESERTED.gs)
    ensures FiledOk(db)
  {
    assert Id(1) in db.groups;
    forall i | i in db.rows ensures RowFiled(db.groups, db.rows[i]) {
      InTable(db, DESERTED.ms, DESERTED.gs, i.n);
      assert DESERTED.ms[i.n - 1] == WAITING || DESERTED.ms[i.n - 1] == MISSED;
    }
  }

  /** Tables in which every member carries its group's key, and a round that takes an orphaned row, come about. */
  lemma OrphanIsReachable()
    ensures exists db :: IsReachable(db) && FiledOk(db) && Orphaned(CTX, Still([10, 0]), db, Id(1))
                         && NextReady(db.rows, NOW, true, 0) == Some(Id(1))
  {
    Story();
    var db :| IsReachable(db) && Table(db, DESERTED.ms, DESERTED.gs);
    DesertedOrphaned(db);
    DesertedFiled(db);
  }

  ghost predicate Alarms(db: Db, e: Env, id: RowId) {
    && NextReady(db.rows, NOW, true, 0) == Some(id)
    && Step(CTX, e, db, id) == GiveUpOn(CTX, id, "sizes differ")
  }

  lemma VerifyAlarms(db: Db, e: Env, i: int, k: int, g: int, m: Mark, n: Mark)
    requires i != k && Id(i) in db.rows && Id(k) in db.rows && Is(db.rows[Id(i)], i, m) && Is(db.rows[Id(k)], k, n)
    requires m.state.Hashed? && m.group == n.group == Some(Id(g)) && m.size != n.size
    requires Id(g) in db.groups && db.groups[Id(g)].canonical == Some(Id(k))
    requires e.open(Loc(i)) == Ok(File(i, m.size)) && e.open(Loc(k)) == Ok(File(k, n.size))
    ensures VerifyStep(CTX, e, db, Id(i)) == GiveUpOn(CTX, Id(i), "sizes differ")
  {
    assert CanonicalMember(db, Id(g)) == Some(Id(k));
  }

  lemma CrossedStep(db: Db, e: Env)
    requires Table(db, CROSSED.ms, CROSSED.gs) && e.open(Loc(1)) == Ok(File(1, 20)) && e.open(Loc(3)) == Ok(File(3, 10))
    ensures Id(1) in db.rows && db.rows[Id(1)].state.Hashed?
            && VerifyStep(CTX, e, db, Id(1)) == GiveUpOn(CTX, Id(1), "sizes differ")
  {
    InTable(db, CROSSED.ms, CROSSED.gs, 1);
    InTable(db, CROSSED.ms, CROSSED.gs, 3);
    assert Id(1) in db.groups;
    VerifyAlarms(db, e, 1, 3, 1, STALE, ORIGIN);
  }

  lemma CrossedNext(db: Db)
    requires Table(db, CROSSED.ms, CROSSED.gs)
    ensures NextReady(db.rows, NOW, true, 0) == Some(Id(1))
  {
    assert FirstDue(CROSSED.ms, 1);
    Next(db, CROSSED.ms, CROSSED.gs, 1);
  }

  lemma CrossedAlarms(db: Db, e: Env)
    requires Table(db, CROSSED.ms, CROSSED.gs) && e.open(Loc(1)) == Ok(File(1, 20)) && e.open(Loc(3)) == Ok(File(3, 10))
    ensures Alarms(db, e, Id(1))
  {
    CrossedNext(db);
    CrossedStep(db, e);
  }

  /**
   * The alarm about different sizes is raised in reachable tables, on files that are intact: each file
   * has exactly the size and times its row says, and no two files of different contents ever had one hash.
   */
  lemma AlarmIsReachable()
    ensures exists db :: IsReachable(db) && Alarms(db, Still([20, 20, 10]), Id(1))
  {
    Story();
    var db :| IsReachable(db) && Table(db, CROSSED.ms, CROSSED.gs);
    StillShows([20, 20, 10], 1);
    StillShows([20, 20, 10], 3);
    CrossedAlarms(db, Still([20, 20, 10]));
  }

  const EXDEV := 18

  /** Row `i` waits in the first group of its key, whose canonical row is on disk; both files are there. */
  ghost predicate Ready2(db: Db, i: int, k: int, g: int, m: Mark, n: Mark) {
    && i != k && Id(i) in db.rows && Id(k) in db.rows && Is(db.rows[Id(i)], i, m) && Is(db.rows[Id(k)], k, n)
    && m.state.Hashed? && m.waits && m.hash == Some(H) && m.group == n.group == Some(Id(g)) && m.size == n.size
    && n.state.Canonical?
    && FirstGroup(db, 0, m.size, H) == Some(Id(g)) && Id(g) in db.groups && db.groups[Id(g)].canonical == Some(Id(k))
    && NextReady(db.rows, NOW, true, 0) == Some(Id(i))
  }

  lemma TwoReady(db: Db)
    requires Table(db, TWO.ms, TWO.gs)
    ensures Ready2(db, 1, 2, 1, WAITING, ORIGIN)
  {
    InTable(db, TWO.ms, TWO.gs, 1);
    InTable(db, TWO.ms, TWO.gs, 2);
    assert FirstDue(TWO.ms, 1) && Id(1) in db.groups;
    Next(db, TWO.ms, TWO.gs, 1);
    TheGroup(db, TWO.ms, TWO.gs, 10, 1);
  }

  ghost predicate Answers(e: Env, i: nat, k: nat, m: Mark, n: Mark) {
    && e.statx(Loc(i)) == Ok(Ident(i, m.size)) && e.open(Loc(i)) == Ok(File(i, m.size))
    && e.open(Loc(k)) == Ok(File(k, n.size))
  }

  lemma ReadyAsks(e: Env, db: Db, i: nat, k: nat, g: int, m: Mark, n: Mark)
    requires Ready2(db, i, k, g, m, n) && Answers(e, i, k, m, n)
    ensures Asks(CTX, e, db, Id(i), Id(k), File(k, n.size), File(i, m.size))
  {
    assert CanonicalMember(db, Id(g)) == Some(Id(k));
  }

  lemma ReadyInterrupted(e: Env, db: Db, i: nat, k: nat, g: int, m: Mark, n: Mark)
    requires Ready2(db, i, k, g, m, n) && Answers(e, i, k, m, n)
    requires e.dedupe(File(k, n.size), File(i, m.size), m.size) == Err(Errno(EINTR))
    ensures Interrupted(CTX, e, db, 0, Id(i), Id(k), File(k, n.size), File(i, m.size))
  {
    ReadyAsks(e, db, i, k, g, m, n);
    SameNext(db.rows, Id(i), Deferred(db.rows[Id(i)], NOW), NOW, true, 0);
  }

  lemma ReadyRuledOut(e: Env, db: Db, i: nat, k: nat, g: int, m: Mark, n: Mark)
    requires Ready2(db, i, k, g, m, n) && Answers(e, i, k, m, n)
    requires e.dedupe(File(k, n.size), File(i, m.size), m.size) == Err(Errno(EXDEV))
    ensures RuledOutAgain(CTX, e, db, 0, Id(i), Id(k), File(k, n.size), File(i, m.size))
  {
    ReadyAsks(e, db, i, k, g, m, n);
    SameNext(db.rows, Id(i), SentBack(db.rows[Id(i)], NOW), NOW, true, 0);
  }

  function Answering(code: int): Env { Disk([10, 10], [10, 10], Err(Errno(code))) }

  ghost predicate Spinning(db: Db) {
    && Interrupted(CTX, Answering(EINTR), db, 0, Id(1), Id(2), File(2, 10), File(1, 10))
    && RuledOutAgain(CTX, Answering(EXDEV), db, 0, Id(1), Id(2), File(2, 10), File(1, 10))
  }

  /**
   * Reachable tables on which a backend that is always interrupted, or always rules the pair out, keeps the
   * worker busy.
   */
  lemma SpinsAreReachable()
    ensures exists db :: IsReachable(db) && Spinning(db)
  {
    Story();
    var db :| IsReachable(db) && Table(db, TWO.ms, TWO.gs);
    TwoReady(db);
    ReadyInterrupted(Answering(EINTR), db, 1, 2, 1, WAITING, ORIGIN);
    ReadyRuledOut(Answering(EXDEV), db, 1, 2, 1, WAITING, ORIGIN);
  }
}
