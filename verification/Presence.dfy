/**
 * The presence session: one walk at a time collects the files it saw, and closing it marks
 * the rows of its root that nobody saw or wrote since the walk began.
 */
module Presence {
  import opened Wrappers
  import opened Model
  import opened StoreSpec
  import opened OpsSpec
  import opened Store

  datatype Session = Session(root: int, seen: set<FileKey>)

  datatype Sighting = Sighting(key: FileKey, fp: Fingerprint, loc: FileLoc)

  datatype Status = Status(db: Db, session: Option<Session>)

  datatype Act =
    | Begin(root: int)
    | Seen(batch: seq<Sighting>, at: Ts)
    | Abort
    | Finish(finished: int, scan: Ts)
    | Write(db: Db)

  /** A file that was missing is upserted; that needs a root the store knows. */
  function SeeOne(kinds: map<int, RootKind>, db: Db, s: Sighting, now: Ts): Option<Db> {
    match FindByKey(db.rows, s.key)
    case None => Some(db)
    case Some(i) =>
      if !db.rows[i].state.Missing? then Some(db)
      else if s.loc.root !in kinds then None
      else Some(PresenceSeen(db, s.key, s.fp, s.loc, now, kinds[s.loc.root]))
  }

  /** One transaction: `None` when some sighting cannot be written. */
  function SeeAll(kinds: map<int, RootKind>, db: Db, batch: seq<Sighting>, now: Ts): Option<Db>
    decreases |batch|
  {
    if batch == [] then Some(db)
    else
      match SeeOne(kinds, db, batch[0], now)
      case None => None
      case Some(db') => SeeAll(kinds, db', batch[1..], now)
  }

  function BatchKeys(batch: seq<Sighting>): set<FileKey> {
    set j | 0 <= j < |batch| :: batch[j].key
  }

  /** The state after an act, and whether the store accepted it. */
  function Do(kinds: map<int, RootKind>, st: Status, act: Act): (Status, bool) {
    match act
    case Begin(root) =>
      if st.session.Some? then (st, false) else (st.(session := Some(Session(root, {}))), true)
    case Seen(batch, now) =>
      if st.session.None? then (st, false)
      else
        var session := st.session.value;
        (match SeeAll(kinds, st.db, batch, now)
         case None => (st, false)
         case Some(db) => (Status(db, Some(session.(seen := session.seen + BatchKeys(batch)))), true))
    case Abort => (st.(session := None), true)
    case Finish(root, scan) =>
      if st.session.None? || st.session.value.root != root then (st, false)
      else (Status(st.db.(rows := PresenceFinish(st.db.rows, root, st.session.value.seen, scan)), None), true)
    case Write(db) => (st.(db := db), true)
  }

  function DoAll(kinds: map<int, RootKind>, st: Status, acts: seq<Act>): Status
    decreases |acts|
  {
    if acts == [] then st else DoAll(kinds, Do(kinds, st, acts[0]).0, acts[1..])
  }

  // ---------------------------------------------------------------- single acts

  /**
   * When an act is accepted: a begin while no session is open, a sighting in a session if all of it can be written,
   * a finish of the session's own root. A refused one changes neither the rows nor the session.
   */
  lemma RefusedChangesNothing(kinds: map<int, RootKind>, st: Status, act: Act)
    ensures !Do(kinds, st, act).1 ==> Do(kinds, st, act).0 == st
    ensures act.Begin? ==> (Do(kinds, st, act).1 <==> st.session.None?)
    ensures act.Seen? ==> (Do(kinds, st, act).1 <==> st.session.Some? && SeeAll(kinds, st.db, act.batch, act.at).Some?)
    ensures act.Finish? ==> (Do(kinds, st, act).1 <==> st.session.Some? && st.session.value.root == act.finished)
    ensures act.Abort? || act.Write? ==> Do(kinds, st, act).1
  {
  }

  /** An accepted begin opens a session that has seen nothing, and writes nothing. */
  lemma BeginOpens(kinds: map<int, RootKind>, db: Db, root: int)
    ensures Do(kinds, Status(db, None), Begin(root)) == (Status(db, Some(Session(root, {}))), true)
  {
  }

  /** Rows of `db` are kept as they are, or were written at `scan` or later. */
  ghost predicate WrittenSince(db: Db, db': Db, scan: Ts) {
    forall i :: i in db'.rows ==> (i in db.rows && db'.rows[i] == db.rows[i]) || db'.rows[i].updated >= scan
  }

  lemma SeeOneWrites(kinds: map<int, RootKind>, db: Db, s: Sighting, now: Ts)
    requires SeeOne(kinds, db, s, now).Some?
    ensures WrittenSince(db, SeeOne(kinds, db, s, now).value, now)
  {
  }

  lemma {:induction false} SeeAllWrites(kinds: map<int, RootKind>, db: Db, batch: seq<Sighting>, now: Ts, scan: Ts)
    requires SeeAll(kinds, db, batch, now).Some? && now >= scan
    ensures WrittenSince(db, SeeAll(kinds, db, batch, now).value, scan)
    decreases |batch|
  {
    if batch != [] {
      SeeOneWrites(kinds, db, batch[0], now);
      SeeAllWrites(kinds, SeeOne(kinds, db, batch[0], now).value, batch[1..], now, scan);
    }
  }

  /** Seeing files marks nothing missing. */
  lemma {:induction false} SeeAllMarksNothing(kinds: map<int, RootKind>, db: Db, batch: seq<Sighting>, now: Ts,
                                              i: RowId)
    requires SeeAll(kinds, db, batch, now).Some? && i in db.rows && !db.rows[i].state.Missing?
    ensures var after := SeeAll(kinds, db, batch, now).value; i in after.rows && !after.rows[i].state.Missing?
    decreases |batch|
  {
    if batch != [] {
      SeeAllMarksNothing(kinds, SeeOne(kinds, db, batch[0], now).value, batch[1..], now, i);
    }
  }

  // ---------------------------------------------------------------- from begin to finish

  /** Not what ends the session of `root`. */
  ghost predicate StaysOpen(act: Act, root: int) {
    !act.Abort? && (act.Finish? ==> act.finished != root)
  }

  /** Writes while the session is open carry dates from `scan` on. */
  ghost predicate DatedSince(st: Status, act: Act, scan: Ts) {
    match act
    case Seen(_, at) => at >= scan
    case Write(db) => WrittenSince(st.db, db, scan)
    case _ => true
  }

  ghost predicate OpenTrace(kinds: map<int, RootKind>, st: Status, acts: seq<Act>, root: int, scan: Ts)
    decreases |acts|
  {
    acts == [] || (StaysOpen(acts[0], root) && DatedSince(st, acts[0], scan)
                   && OpenTrace(kinds, Do(kinds, st, acts[0]).0, acts[1..], root, scan))
  }

  /** The keys of the batches the store accepted. */
  ghost function SeenKeys(kinds: map<int, RootKind>, st: Status, acts: seq<Act>): set<FileKey>
    decreases |acts|
  {
    if acts == [] then {}
    else
      var (next, ok) := Do(kinds, st, acts[0]);
      (if acts[0].Seen? && ok then set j | 0 <= j < |acts[0].batch| :: acts[0].batch[j].key else {})
      + SeenKeys(kinds, next, acts[1..])
  }

  lemma ActKeepsSession(kinds: map<int, RootKind>, st: Status, act: Act, scan: Ts)
    requires st.session.Some? && StaysOpen(act, st.session.value.root) && DatedSince(st, act, scan)
    ensures var (next, ok) := Do(kinds, st, act);
      && next.session == Some(Session(st.session.value.root,
           st.session.value.seen + (if act.Seen? && ok then BatchKeys(act.batch) else {})))
      && WrittenSince(st.db, next.db, scan)
  {
    assert st.session.value.seen + {} == st.session.value.seen;
    if act.Seen? && SeeAll(kinds, st.db, act.batch, act.at).Some? {
      SeeAllWrites(kinds, st.db, act.batch, act.at, scan);
    }
  }

  lemma {:induction false} TraceKeepsSession(kinds: map<int, RootKind>, st: Status, acts: seq<Act>, scan: Ts)
    requires st.session.Some? && OpenTrace(kinds, st, acts, st.session.value.root, scan)
    ensures var end := DoAll(kinds, st, acts);
      && end.session == Some(Session(st.session.value.root, st.session.value.seen + SeenKeys(kinds, st, acts)))
      && WrittenSince(st.db, end.db, scan)
    decreases |acts|
  {
    if acts != [] {
      ActKeepsSession(kinds, st, acts[0], scan);
      var (next, ok) := Do(kinds, st, acts[0]);
      TraceKeepsSession(kinds, next, acts[1..], scan);
      var first := if acts[0].Seen? && ok then BatchKeys(acts[0].batch) else {};
      var rest := SeenKeys(kinds, next, acts[1..]);
      assert (st.session.value.seen + first) + rest == st.session.value.seen + (first + rest);
    } else {
      assert st.session.value.seen + {} == st.session.value.seen;
    }
  }

  /** A live row of the root, dated before the scan, that nobody wrote between begin and finish. */
  ghost predicate Untouched(begun: Db, end: Db, i: RowId, root: int, scan: Ts) {
    && i in begun.rows && i in end.rows && end.rows[i] == begun.rows[i]
    && begun.rows[i].loc.root == root && begun.rows[i].Live() && begun.rows[i].updated < scan
  }

  /**
   * Whatever happens between an accepted begin and the finish of the same root, the finish is
   * accepted and marks exactly the live rows of the root that were there at the beginning, that
   * nobody wrote since, and whose file no accepted batch saw; every other row stays as it is.
   */
  lemma FinishMarksExactly(kinds: map<int, RootKind>, db: Db, acts: seq<Act>, root: int, scan: Ts, i: RowId)
    requires var begun := Status(db, Some(Session(root, {})));
      OpenTrace(kinds, begun, acts, root, scan) && i in DoAll(kinds, begun, acts).db.rows
    ensures var begun := Status(db, Some(Session(root, {})));
      var end := DoAll(kinds, begun, acts);
      var (after, ok) := Do(kinds, end, Finish(root, scan));
      && ok && after.session == None && after.db.groups == end.db.groups && i in after.db.rows
      && after.db.rows[i] == (if Untouched(db, end.db, i, root, scan) && db.rows[i].key !in SeenKeys(kinds, begun, acts)
                              then SetMissing(db.rows[i], scan) else end.db.rows[i])
  {
    var begun := Status(db, Some(Session(root, {})));
    TraceKeepsSession(kinds, begun, acts, scan);
    assert {} + SeenKeys(kinds, begun, acts) == SeenKeys(kinds, begun, acts);
  }

  /** A cut walk gives up its session and marks nothing. */
  lemma AbortMarksNothing(kinds: map<int, RootKind>, db: Db, acts: seq<Act>, root: int, scan: Ts)
    requires OpenTrace(kinds, Status(db, Some(Session(root, {}))), acts, root, scan)
    ensures var end := DoAll(kinds, Status(db, Some(Session(root, {}))), acts);
      && Do(kinds, end, Abort) == (Status(end.db, None), true)
      && !Do(kinds, Status(end.db, None), Finish(root, scan)).1
  {
    TraceKeepsSession(kinds, Status(db, Some(Session(root, {}))), acts, scan);
  }

  // ---------------------------------------------------------------- the store

  class PresenceStore {
    const repo: Repository
    var session: Option<Session>

    constructor (repo: Repository)
      ensures this.repo == repo && session == None
    {
      this.repo := repo;
      session := None;
    }

    ghost function Now(): Status
      reads this, repo
    {
      Status(repo.Tables(), session)
    }

    method BeginSession(root: int) returns (ok: bool)
      modifies this
      ensures (Now(), ok) == Do(repo.roots, old(Now()), Begin(root))
    {
      ok := session.None?;
      if ok {
        session := Some(Session(root, {}));
      }
    }

    /** One transaction: a sighting that cannot be written undoes the whole batch. */
    method SeeBatch(batch: seq<Sighting>, now: Ts) returns (ok: bool)
      modifies this, repo
      ensures repo.roots == old(repo.roots)
      ensures (Now(), ok) == Do(repo.roots, old(Now()), Seen(batch, now))
    {
      if session.None? {
        return false;
      }
      var rows, groups := repo.rows, repo.groups;
      var seen := session.value.seen;
      var i := 0;
      while i < |batch|
        invariant 0 <= i <= |batch| && session == old(session) && repo.roots == old(repo.roots)
        invariant SeeAll(repo.roots, repo.Tables(), batch[i..], now)
                  == SeeAll(repo.roots, old(repo.Tables()), batch, now)
        invariant seen == session.value.seen + BatchKeys(batch[..i])
        invariant rows == old(repo.rows) && groups == old(repo.groups)
      {
        assert batch[i..][1..] == batch[i + 1..];
        assert batch[..i + 1] == batch[..i] + [batch[i]];
        AddedKey(batch[..i], batch[i]);
        var s := batch[i];
        seen := seen + {s.key};
        var found := FindByKey(repo.rows, s.key);
        if found.Some? && repo.rows[found.value].state.Missing? {
          var r := repo.rows[found.value];
          var incoming := Identity(s.key, r.domain, s.fp.size, s.fp.mtime, s.fp.ctime, r.nlink, r.uid, r.mode);
          var written := repo.UpsertPending(incoming, s.loc, now, r.priority, now);
          if !written {
            repo.rows, repo.groups := rows, groups;
            return false;
          }
        }
        i := i + 1;
      }
      assert batch[..i] == batch;
      session := Some(Session(session.value.root, seen));
      ok := true;
    }

    method AbortSession()
      modifies this
      ensures Now() == Do(repo.roots, old(Now()), Abort).0
    {
      session := None;
    }

    method FinishSession(root: int, scan: Ts) returns (ok: bool)
      modifies this, repo`rows
      ensures (Now(), ok) == Do(repo.roots, old(Now()), Finish(root, scan))
    {
      if session.None? || session.value.root != root {
        return false;
      }
      repo.rows := PresenceFinish(repo.rows, root, session.value.seen, scan);
      session := None;
      ok := true;
    }
  }

  lemma AddedKey(batch: seq<Sighting>, s: Sighting)
    ensures BatchKeys(batch + [s]) == BatchKeys(batch) + {s.key}
  {
    forall x | x in BatchKeys(batch) + {s.key} ensures x in BatchKeys(batch + [s]) {
      if x == s.key {
        assert (batch + [s])[|batch|].key == x;
      } else {
        var j :| 0 <= j < |batch| && batch[j].key == x;
        assert (batch + [s])[j].key == x;
      }
    }
  }
}
