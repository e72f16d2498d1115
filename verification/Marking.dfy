/**
 * What an event that takes files away must do: exactly the rows at the path, and component-wise below it where the
 * event is not about a single file, stop being live, and everything else stays as it was.
 */
module Marking {
  import opened Wrappers
  import opened Model
  import opened OpsSpec
  import opened PathText
  import opened Handler

  // ---------------------------------------------------------------- what the file system says

  /** `NotFound`, or the error number of `ENOENT`. */
  ghost predicate NothingThere(sc: Scene, loc: FileLoc) {
    sc.statx(loc) == Err(NotFound) || sc.statx(loc) == Err(Io(2))
  }

  /** A file that is no directory. */
  ghost predicate FileThere(sc: Scene, loc: FileLoc, id: Identity) {
    sc.statx(loc) == Ok(id) && (id.mode / 0x1000) % 16 != 4
  }

  lemma NothingIsAbsent(sc: Scene, loc: FileLoc)
    ensures NothingThere(sc, loc) <==> Look(sc, loc).Absent?
  {
  }

  lemma FileIsSeen(sc: Scene, loc: FileLoc, id: Identity)
    ensures FileThere(sc, loc, id) <==> Look(sc, loc) == IsFile(id)
  {
  }

  // ---------------------------------------------------------------- what is marked

  predicate OnDisk(r: Row) { !r.state.Missing? && !r.state.Gone? }

  /** A live row whose file is gone: it remembers its state and leaves the queue. */
  function Lost(r: Row, now: Ts): Row {
    r.(state := Missing, prev := Some(r.state), readyAt := None, heavySince := None, updated := now)
  }

  /** At `at`, or component-wise below it. */
  predicate AtOrBelow(loc: FileLoc, at: FileLoc) {
    loc.root == at.root && Components(Trim(at.rel)) <= Components(loc.rel)
  }

  /** The paths an event speaks of. */
  datatype Area =
    | ThePath(at: FileLoc)
    | FromHereDown(at: FileLoc)
    | OnlyBelow(at: FileLoc)
    | TargetAndSource(at: FileLoc, from: FileLoc)
  {
    predicate Has(loc: FileLoc) {
      match this
      case ThePath(_) => loc == at
      case FromHereDown(_) => AtOrBelow(loc, at)
      case OnlyBelow(_) => AtOrBelow(loc, at) && loc != at
      case TargetAndSource(_, _) => loc == at || AtOrBelow(loc, from)
    }
  }

  ghost function LiveIn(rows: map<RowId, Row>, area: Area): set<RowId> {
    set i | i in rows && OnDisk(rows[i]) && area.Has(rows[i].loc)
  }

  /** Exactly the live rows of the area are lost. */
  ghost predicate LosesExactly(rows: map<RowId, Row>, rows': map<RowId, Row>, area: Area, now: Ts) {
    && rows'.Keys == rows.Keys
    && forall i :: i in rows ==>
         rows'[i] == if OnDisk(rows[i]) && area.Has(rows[i].loc) then Lost(rows[i], now) else rows[i]
  }

  ghost function Report(loc: FileLoc, n: nat): seq<FollowUp> {
    if n == 0 then [] else [MarkedMissing(loc, n)]
  }

  // ---------------------------------------------------------------- the range test is the component test

  lemma UnderIffBelow(dir: FileLoc, loc: FileLoc)
    ensures Under(dir, loc) <==> AtOrBelow(loc, dir)
  {
    SqlUnderIsUnder(Trim(dir.rel), loc.rel);
  }

  lemma {:induction false} TrimIsPrefix(s: string)
    ensures s == Trim(s) || Trim(s) + "/" <= s
    decreases |s|
  {
    if s != "" && s[|s| - 1] == '/' {
      var front := s[..|s| - 1];
      assert s == front + "/";
      TrimIsPrefix(front);
    }
  }

  /** A path, whatever slashes end it, is at or below itself. */
  lemma AtItself(loc: FileLoc)
    ensures AtOrBelow(loc, loc)
  {
    TrimIsPrefix(loc.rel);
    if Trim(loc.rel) != "" && Trim(loc.rel) + "/" <= loc.rel { PrefixIsBelow(Trim(loc.rel), loc.rel); }
  }

  lemma PointLoses(rows: map<RowId, Row>, loc: FileLoc, now: Ts)
    ensures LosesExactly(rows, MarkMissing(rows, loc, now), ThePath(loc), now)
  {
  }

  lemma RangeLoses(rows: map<RowId, Row>, dir: FileLoc, now: Ts)
    ensures LosesExactly(rows, MarkMissingPrefix(rows, dir, now), FromHereDown(dir), now)
    ensures |LiveUnder(rows, dir)| == |LiveIn(rows, FromHereDown(dir))|
  {
    forall i | i in rows ensures Under(dir, rows[i].loc) <==> AtOrBelow(rows[i].loc, dir) {
      UnderIffBelow(dir, rows[i].loc);
    }
    assert LiveUnder(rows, dir) == LiveIn(rows, FromHereDown(dir));
  }

  /** The point first leaves the rows below for the range. */
  lemma PointThenRange(rows: map<RowId, Row>, mid: map<RowId, Row>, rows': map<RowId, Row>, loc: FileLoc, now: Ts)
    requires LosesExactly(rows, mid, ThePath(loc), now) && LosesExactly(mid, rows', FromHereDown(loc), now)
    ensures LosesExactly(rows, rows', FromHereDown(loc), now)
    ensures LiveIn(mid, FromHereDown(loc)) == LiveIn(rows, OnlyBelow(loc))
  {
    AtItself(loc);
    forall i | i in rows
      ensures mid[i].loc == rows[i].loc && (OnDisk(mid[i]) <==> OnDisk(rows[i]) && rows[i].loc != loc)
    {
    }
  }

  /** Everything at or below a path where nothing is any more was marked, and nothing else changed. */
  ghost predicate ClearsAway(sc: Scene, db: Db, after: (Db, FollowUps), loc: FileLoc) {
    && LosesExactly(db.rows, after.0.rows, FromHereDown(loc), sc.now) && after.0.groups == db.groups
    && after.1 == Ok(Report(loc, |LiveIn(db.rows, OnlyBelow(loc))|))
  }

  lemma BothLose(sc: Scene, db: Db, loc: FileLoc)
    ensures ClearsAway(sc, db, MarkGone(sc, db, loc), loc)
  {
    var mid := MarkMissing(db.rows, loc, sc.now);
    PointLoses(db.rows, loc, sc.now);
    RangeLoses(mid, loc, sc.now);
    PointThenRange(db.rows, mid, MarkMissingPrefix(mid, loc, sc.now), loc, sc.now);
  }

  // ---------------------------------------------------------------- events that take files away

  /** The deletion of a file, as the kernel reports it: the rows at the path and no others. */
  lemma RemovedMarks(sc: Scene, db: Db, loc: FileLoc)
    ensures var (db', said) := Handle(sc, db, Removed(loc));
      && LosesExactly(db.rows, db'.rows, ThePath(loc), sc.now) && db'.groups == db.groups && said == Ok([])
  {
    PointLoses(db.rows, loc, sc.now);
  }

  /** The deletion of a directory: everything at it or below it, counted. */
  lemma RemovedDirMarks(sc: Scene, db: Db, dir: FileLoc)
    ensures var (db', said) := Handle(sc, db, RemovedDir(dir));
      && LosesExactly(db.rows, db'.rows, FromHereDown(dir), sc.now) && db'.groups == db.groups
      && said == Ok(Report(dir, |LiveIn(db.rows, FromHereDown(dir))|))
  {
    RangeLoses(db.rows, dir, sc.now);
  }

  /** Something left a path, and nothing is there now. */
  lemma GoneIsMarked(sc: Scene, db: Db, loc: FileLoc)
    requires loc.rel != "" && NothingThere(sc, loc)
    ensures ClearsAway(sc, db, Handle(sc, db, RemovedUnknown(loc)), loc)
  {
    NothingIsAbsent(sc, loc);
    BothLose(sc, db, loc);
  }

  /** What a rename brings is out of sight at its target, or is not there. */
  ghost predicate OutOfSight(sc: Scene, to: FileLoc) {
    || sc.excludedDir(to.rel)
    || NothingThere(sc, to)
    || exists id :: FileThere(sc, to, id) && sc.rejects(to, id.size)
  }

  /** A rename out of sight, or one whose target has gone again, is a departure from its source. */
  lemma RenamedAwayIsMarked(sc: Scene, db: Db, from: FileLoc, to: FileLoc)
    requires from.rel != "" && NothingThere(sc, from) && OutOfSight(sc, to)
    ensures ClearsAway(sc, db, Handle(sc, db, Renamed(from, to)), from)
  {
    NothingIsAbsent(sc, from);
    NothingIsAbsent(sc, to);
    forall id ensures FileThere(sc, to, id) <==> Look(sc, to) == IsFile(id) { FileIsSeen(sc, to, id); }
    BothLose(sc, db, from);
  }

  /** The same of a directory that is moved into an excluded one. */
  lemma DirRenamedAwayIsMarked(sc: Scene, db: Db, from: FileLoc, to: FileLoc)
    requires from.rel != "" && NothingThere(sc, from) && sc.excludedDir(to.rel)
    ensures ClearsAway(sc, db, Handle(sc, db, RenamedDir(from, to)), from)
  {
    NothingIsAbsent(sc, from);
    BothLose(sc, db, from);
  }
}
