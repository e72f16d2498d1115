/**
 * Tables of a few files, one on each share, reduced to what matters of their rows, and the
 * operations on them that a run from empty tables may take: what each does to the marks.
 */
module MarkedTables {
  import opened Wrappers
  import opened Model
  import opened Selection
  import opened StoreSpec
  import opened OpsSpec
  import opened Rules
  import opened Pipeline
  import opened Operations
  import opened Reachable
  import opened Filed
  import opened Spins

  // ---------------------------------------------------------------- files, tables, rounds

  const NOW := 2
  const H: Hash := 7
  const CTX := Ctx(NOW, true, None, 1, SameDomain, 10, 0, true, false, false)

  /** File `i` is the only one of share `i`; the later its number, the older it is. */
  function Loc(i: int): FileLoc { FileLoc(i, "film") }

  function Ident(i: nat, size: nat): Identity {
    Identity(FileKey(0, i), 0, size, 10 - i, 0, 1, 0, 0)
  }

  /** The files of size 10 are equal; the digest of any other contents is another one. */
  function DigestOf(size: nat): Hash { if size == 10 then H else H + 1 }

  function File(i: nat, size: nat): Opened {
    Opened(Ident(i, size), Ok(Ident(i, size)), Ok(false), Ok(true), Ok(DigestOf(size)), [], _ => true)
  }

  predicate There(sizes: seq<nat>, l: FileLoc) {
    1 <= l.root <= |sizes| && sizes[l.root - 1] > 0
  }

  /** What `statx` and, right after it, `open` say of each file's size; 0 for a file that is not there. */
  function Disk(seen: seq<nat>, atOpen: seq<nat>, answer: Result<DedupeOutcome, DedupeError>): Env {
    Env(l => if There(seen, l) then Ok(Ident(l.root, seen[l.root - 1])) else Err(NotFound),
        l => if There(atOpen, l) then Ok(File(l.root, atOpen[l.root - 1])) else Err(NotFound),
        l => Err(NotFound),
        (_, _, _) => answer)
  }

  function Still(sizes: seq<nat>): Env { Disk(sizes, sizes, Ok(Same(0))) }

  lemma StillShows(sizes: seq<nat>, i: nat)
    requires 1 <= i <= |sizes|
    ensures Still(sizes).statx(Loc(i)) == if sizes[i - 1] > 0 then Ok(Ident(i, sizes[i - 1])) else Err(NotFound)
    ensures Still(sizes).open(Loc(i)) == if sizes[i - 1] > 0 then Ok(File(i, sizes[i - 1])) else Err(NotFound)
  {
  }

  /** What matters of a row. */
  datatype Mark = Mark(state: State, prev: Option<State>, waits: bool, size: nat, hash: Option<Hash>,
                       group: Option<GroupId>) {
    predicate Due() { waits && state.Queued() }
  }

  ghost predicate Is(r: Row, i: int, m: Mark) {
    && i > 0 && r.key == FileKey(0, i) && r.domain == 0 && r.loc == Loc(i) && r.uid == 0
    && r.Print() == Ident(i, m.size).Print() && r.nlink == 1
    && r.state == m.state && (m.prev.Some? ==> r.prev == m.prev) && r.readyAt == (if m.waits then Some(NOW) else None)
    && r.priority == 0 && r.firstSeen == NOW && r.skipReason == None
    && (r.state.Settling? ==> r.enq == Some(r.Print()))
    && r.sparse == m.hash && r.group == m.group
  }

  /** Row `i` is marked `ms[i - 1]`; group `g` has the hash, the size and the canonical row `gs[g - 1]`. */
  ghost predicate Table(db: Db, ms: seq<Mark>, gs: seq<(nat, int)>) {
    && (forall k :: k in db.rows <==> 1 <= k.n <= |ms|)
    && (forall k :: k in db.rows ==> Is(db.rows[k], k.n, ms[k.n - 1]))
    && (forall g :: g in db.groups <==> 1 <= g.n <= |gs|)
    && (forall g :: g in db.groups ==>
          KeyedAs(db.groups[g], 0, gs[g.n - 1].0, H) && db.groups[g].canonical == Some(Id(gs[g.n - 1].1)))
  }

  ghost predicate FirstDue(ms: seq<Mark>, i: int) {
    1 <= i <= |ms| && ms[i - 1].Due() && forall j :: 0 <= j < i - 1 ==> !ms[j].Due()
  }

  lemma Next(db: Db, ms: seq<Mark>, gs: seq<(nat, int)>, i: int)
    requires Table(db, ms, gs) && FirstDue(ms, i)
    ensures Id(i) in db.rows && NextReady(db.rows, NOW, true, 0) == Some(Id(i))
  {
    assert Id(i) in db.rows && Is(db.rows[Id(i)], i, ms[i - 1]);
    forall j | j in db.rows && j != Id(i) && IsDue(db.rows[j], NOW, true, 0)
      ensures Less(QueueRank(db.rows[Id(i)], Id(i)), QueueRank(db.rows[j], j))
    {
      assert Is(db.rows[j], j.n, ms[j.n - 1]) && ms[j.n - 1].Due();
    }
    NextReadyIs(db.rows, Id(i), NOW, true, 0);
  }

  function OneRound(e: Env): Op { WorkerRound(CTX, e, 0) }

  lemma OneRow(db: Db, ms: seq<Mark>, gs: seq<(nat, int)>, i: int, r: Row, m: Mark)
    requires Table(db, ms, gs) && 1 <= i <= |ms| && Is(r, i, m)
    ensures Table(db.(rows := db.rows[Id(i) := r]), ms[i - 1 := m], gs)
  {
  }

  /** A round that moves only its own row. */
  lemma Moves(db: Db, ms: seq<Mark>, gs: seq<(nat, int)>, i: int, e: Env, to: State, p: Patch, m: Mark)
    requires Table(db, ms, gs) && FirstDue(ms, i) && Id(i) in db.rows
    requires db.rows[Id(i)].state == ms[i - 1].state
    requires Step(CTX, e, db, Id(i)) == Move(Id(i), ms[i - 1].state, to, p, NOW)
    requires Is(PatchRow(db.rows[Id(i)], Cas(Id(i), ms[i - 1].state, to, p), NOW), i, m)
    ensures Table(Perform(db, OneRound(e)), ms[i - 1 := m], gs)
  {
    Next(db, ms, gs, i);
    OneRowRound(db, i, e, ms[i - 1].state, to, p);
    OneRow(db, ms, gs, i, PatchRow(db.rows[Id(i)], Cas(Id(i), ms[i - 1].state, to, p), NOW), m);
  }

  lemma OneRowRound(db: Db, i: int, e: Env, from: State, to: State, p: Patch)
    requires Id(i) in db.rows && db.rows[Id(i)].state == from
    requires NextReady(db.rows, NOW, true, 0) == Some(Id(i)) && Step(CTX, e, db, Id(i)) == Move(Id(i), from, to, p, NOW)
    ensures Perform(db, OneRound(e))
            == db.(rows := db.rows[Id(i) := PatchRow(db.rows[Id(i)], Cas(Id(i), from, to, p), NOW)])
  {
  }

  /** No two groups share a size. */
  ghost predicate OneGroup(gs: seq<(nat, int)>, size: nat, g: int) {
    1 <= g <= |gs| && forall x :: 0 <= x < |gs| ==> (gs[x].0 == size <==> x == g - 1)
  }

  lemma TheGroup(db: Db, ms: seq<Mark>, gs: seq<(nat, int)>, size: nat, g: int)
    requires Table(db, ms, gs) && OneGroup(gs, size, g)
    ensures FirstGroup(db, 0, size, H) == Some(Id(g))
  {
    assert Id(g) in GroupsByKey(db, 0, size, H);
    forall x | x in GroupsByKey(db, 0, size, H) ensures x == Id(g) {
      assert gs[x.n - 1].0 == size;
    }
  }

  lemma NoGroup(db: Db, ms: seq<Mark>, gs: seq<(nat, int)>, size: nat)
    requires Table(db, ms, gs) && forall x :: 0 <= x < |gs| ==> gs[x].0 != size
    ensures FirstGroup(db, 0, size, H) == None
  {
    assert GroupsByKey(db, 0, size, H) == {};
  }

  /** Row `k` is the only candidate for row `i`; with `k` 0 there is none. */
  ghost predicate Peer(ms: seq<Mark>, i: int, k: int)
    requires 1 <= i <= |ms|
  {
    forall j :: 0 <= j < |ms| && j != i - 1 && ms[j].size == ms[i - 1].size ==>
      !ms[j].state.Settling? && (ms[j].state.Sized? || ms[j].state.Distinct? <==> j == k - 1)
  }

  lemma OneLeast(m: map<Id, Rank>, k: Id, limit: nat)
    requires Keyed(m) && m.Keys == {k} && limit > 0
    ensures TakeLeast(m, limit) == [k]
  {
    var s := TakeLeast(m, limit);
    assert s[0] in m;
  }

  lemma OneCandidate(rows: map<RowId, Row>, me: RowId, k: RowId, before: int, limit: nat)
    requires me in rows && k in rows && limit > 0
    requires forall j :: j in rows ==> (IsCandidate(me, rows[me], j, rows[j], SameDomain, before) <==> j == k)
    ensures Candidates(rows, me, SameDomain, before, limit) == [k]
  {
    var m := map i | i in rows && IsCandidate(me, rows[me], i, rows[i], SameDomain, before)
      :: Rank(if rows[i].sparse.None? then 1 else 0, rows[i].mtime, rows[i].firstSeen, i.n);
    OneLeast(m, k, limit);
  }

  lemma NoCandidate(rows: map<RowId, Row>, me: RowId, before: int, limit: nat)
    requires me in rows && forall j :: j in rows ==> !IsCandidate(me, rows[me], j, rows[j], SameDomain, before)
    ensures Candidates(rows, me, SameDomain, before, limit) == []
  {
    var s := Candidates(rows, me, SameDomain, before, limit);
  }

  const BEFORE := (NOW - 1) * MS_PER_NS

  lemma FindsPeers(db: Db, ms: seq<Mark>, gs: seq<(nat, int)>, i: int, k: int)
    requires Table(db, ms, gs) && 1 <= i <= |ms| <= 3 && Peer(ms, i, k)
    requires k == 0 || (1 <= k <= |ms| && k != i && ms[k - 1].size == ms[i - 1].size)
    ensures Id(i) in db.rows && StillSettling(CTX, db, Id(i)) == None
    ensures SettledPeers(CTX, db, Id(i)) == if k == 0 then [] else [Id(k)]
  {
    var rows := db.rows;
    assert Is(rows[Id(i)], i, ms[i - 1]);
    forall j | j in rows
      ensures j != Id(i) ==> !(rows[j].state.Settling? && rows[j].size == rows[Id(i)].size)
      ensures IsCandidate(Id(i), rows[Id(i)], j, rows[j], SameDomain, BEFORE) <==> k != 0 && j == Id(k)
    {
      assert Is(rows[j], j.n, ms[j.n - 1]);
    }
    assert PendingSameSize(rows, Id(i), SameDomain) == None;
    if k == 0 { NoCandidate(rows, Id(i), BEFORE, 10); } else { OneCandidate(rows, Id(i), Id(k), BEFORE, 10); }
  }

  // ---------------------------------------------------------------- reachable tables

  lemma {:induction false} RunOneMore(db: Db, ops: seq<Op>, op: Op)
    ensures Run(db, ops + [op]) == Perform(Run(db, ops), op)
    decreases |ops|
  {
    if ops == [] {
      assert [op][1..] == [];
      assert Run(db, [op]) == Run(Perform(db, op), []);
    } else {
      assert (ops + [op])[1..] == ops[1..] + [op];
      RunOneMore(Perform(db, ops[0]), ops[1..], op);
    }
  }

  lemma Reaches(db: Db, op: Op)
    requires IsReachable(db) && OpOk(op)
    ensures IsReachable(Perform(db, op))
  {
    var ops: seq<Op> :| (forall j :: 0 <= j < |ops| ==> OpOk(ops[j])) && db == Run(EMPTY, ops);
    RunOneMore(EMPTY, ops, op);
    assert Perform(db, op) == Run(EMPTY, ops + [op]);
  }

  // ---------------------------------------------------------------- the kinds of steps of the run

  lemma TableGrows(db: Db, ms: seq<Mark>, gs: seq<(nat, int)>, r: Row, m: Mark)
    requires Table(db, ms, gs) && Is(r, |ms| + 1, m)
    ensures Table(db.(rows := db.rows[Id(|ms| + 1) := r]), ms + [m], gs)
  {
  }

  lemma Inserts(db: Db, ms: seq<Mark>, gs: seq<(nat, int)>, size: nat,
        op: Op, ms': seq<Mark>)
    requires Table(db, ms, gs)
    requires op == Insert(|ms| + 1, size) && ms' == ms + [Mark(Sized, None, true, size, None, None)]
    ensures Table(Perform(db, op), ms', gs)
  {
    var n := |ms| + 1;
    forall j | j in db.rows ensures db.rows[j].key != FileKey(0, n) { assert Is(db.rows[j], j.n, ms[j.n - 1]); }
    NextIdIs(db.rows.Keys, n);
    InsertOne(db, n, size);
    TableGrows(db, ms, gs, Fresh(n, size), Mark(Sized, None, true, size, None, None));
  }

  function Fresh(i: nat, size: nat): Row { NewRow(Ident(i, size), Loc(i), Sized, Some(NOW), 0, NOW) }

  lemma InsertOne(db: Db, n: nat, size: nat)
    requires n > 0 && FindByKey(db.rows, FileKey(0, n)).None? && NextId(db.rows.Keys) == Id(n)
    ensures Perform(db, Insert(n, size)) == db.(rows := db.rows[Id(n) := Fresh(n, size)])
  {
    var b := ScanRow(Ident(n, size), Loc(n), Sized, Some(NOW), 0);
    assert [b][1..] == [];
    assert ScanInsert(db.rows, [b], NOW) == ScanInsertOne(db.rows, b, NOW);
  }

  lemma NextIdIs(ids: set<Id>, n: int)
    requires n >= 1 && forall k :: k in ids <==> 1 <= k.n < n
    ensures NextId(ids) == Id(n)
  {
    if n > 1 { assert Id(n - 1) in ids; }
  }

  function Insert(i: int, size: nat): Op
    requires i > 0
  {
    InsertBatch([ScanRow(Ident(i, size), Loc(i), Sized, Some(NOW), 0)], NOW)
  }

  lemma Hashes(db: Db, ms: seq<Mark>, gs: seq<(nat, int)>, i: int, sizes: seq<nat>,
        op: Op, ms': seq<Mark>)
    requires Table(db, ms, gs) && FirstDue(ms, i) && |ms| <= |sizes|
    requires ms[i - 1].state.Sized? && ms[i - 1].hash.None? && ms[i - 1].size == sizes[i - 1] == 10
    requires op == OneRound(Still(sizes)) && ms' == ms[i - 1 := ms[i - 1].(hash := Some(H))]
    ensures Table(Perform(db, op), ms', gs)
  {
    var p := Ready(Some(NOW)).(sparse := Put(Some(H)), hashVersion := Put(HASH_VERSION), magicOk := Put(true),
                               heavySince := Put(None));
    assert Is(db.rows[Id(i)], i, ms[i - 1]);
    Moves(db, ms, gs, i, Still(sizes), Sized, p, ms[i - 1].(hash := Some(H)));
  }

  ghost predicate Alike(ms: seq<Mark>, i: int, k: int) {
    1 <= i <= |ms| && 1 <= k <= |ms| && k != i && ms[k - 1].size == ms[i - 1].size
  }

  /** Row `i` has its hash, no group has its key, and row `k` is its only candidate. */
  ghost predicate Meets(ms: seq<Mark>, gs: seq<(nat, int)>, i: int, k: int, sizes: seq<nat>) {
    && |ms| <= |sizes| && |ms| <= 3 && Alike(ms, i, k) && Peer(ms, i, k)
    && ms[i - 1].state.Sized? && ms[i - 1].hash == Some(H) && ms[i - 1].size == sizes[i - 1] > 0
    && forall x :: 0 <= x < |gs| ==> gs[x].0 != ms[i - 1].size
  }

  /** Row `i` is next, no group has its key, and row `k` is its only candidate: as far as the tables matter. */
  ghost predicate Pair(db: Db, i: int, k: int, m: Mark, n: Mark) {
    && i != k && Id(i) in db.rows && Id(k) in db.rows && Is(db.rows[Id(i)], i, m) && Is(db.rows[Id(k)], k, n)
    && m.state.Sized? && m.hash == Some(H) && FirstGroup(db, 0, m.size, H) == None
    && NextReady(db.rows, NOW, true, 0) == Some(Id(i))
    && StillSettling(CTX, db, Id(i)) == None && SettledPeers(CTX, db, Id(i)) == [Id(k)]
  }

  lemma MeetsPair(db: Db, ms: seq<Mark>, gs: seq<(nat, int)>, i: int, k: int, sizes: seq<nat>)
    requires Table(db, ms, gs) && FirstDue(ms, i) && Meets(ms, gs, i, k, sizes)
    ensures Pair(db, i, k, ms[i - 1], ms[k - 1])
  {
    Next(db, ms, gs, i);
    NoGroup(db, ms, gs, ms[i - 1].size);
    FindsPeers(db, ms, gs, i, k);
    InTable(db, ms, gs, i);
    InTable(db, ms, gs, k);
  }

  lemma InTable(db: Db, ms: seq<Mark>, gs: seq<(nat, int)>, i: int)
    requires Table(db, ms, gs) && 1 <= i <= |ms|
    ensures Id(i) in db.rows && Is(db.rows[Id(i)], i, ms[i - 1])
  {
  }

  lemma PairStep(e: Env, db: Db, i: int, k: int, m: Mark, n: Mark)
    requires Pair(db, i, k, m, n) && e.statx(Loc(i)) == Ok(Ident(i, m.size))
    ensures Step(CTX, e, db, Id(i)) == AmongCandidates(CTX, e, db, Id(i), H, [Id(k)])
  {
  }

  const MEND := NO_PATCH.(sparse := Put(Some(H)), hashVersion := Put(HASH_VERSION), magicOk := Put(true))

  lemma MendsOne(e: Env, db: Db, i: int, k: int, m: Mark)
    requires Id(i) in db.rows && Id(k) in db.rows && Is(db.rows[Id(k)], k, m) && m.state.Sized? && m.hash.None?
    requires m.size == 10 && e.open(Loc(k)) == Ok(File(k, m.size))
    ensures AmongCandidates(CTX, e, db, Id(i), H, [Id(k)])
            == MendCandidate(CTX, Id(i), Id(k), db.rows[Id(k)], Sized, MEND)
  {
    assert FirstUnhashed(db.rows, [Id(k)]) == Some(Id(k));
  }

  lemma TwoRows(db: Db, ms: seq<Mark>, gs: seq<(nat, int)>, i: int, r: Row, m: Mark, k: int, s: Row, n: Mark)
    requires Table(db, ms, gs) && 1 <= i <= |ms| && 1 <= k <= |ms| && i != k && Is(r, i, m) && Is(s, k, n)
    ensures Table(db.(rows := db.rows[Id(i) := r][Id(k) := s]), ms[i - 1 := m][k - 1 := n], gs)
  {
    OneRow(db, ms, gs, i, r, m);
    OneRow(db.(rows := db.rows[Id(i) := r]), ms[i - 1 := m], gs, k, s, n);
  }

  lemma RoundIs(db: Db, e: Env, id: RowId, t: Transition)
    requires id in db.rows && NextReady(db.rows, NOW, true, 0) == Some(id) && Step(CTX, e, db, id) == Ok(Commit(t))
    ensures Apply(db, t).Applied? ==> Perform(db, OneRound(e)) == Apply(db, t).db
  {
  }

  function Backfilled(db: Db, i: int, k: int): Db
    requires Id(i) in db.rows && Id(k) in db.rows
  {
    var main := Cas(Id(i), Sized, Sized, Ready(Some(NOW)).(heavySince := Put(None)));
    db.(rows := db.rows[Id(i) := PatchRow(db.rows[Id(i)], main, NOW)]
                       [Id(k) := PatchRow(db.rows[Id(k)], Cas(Id(k), Sized, Sized, MEND), NOW)])
  }

  lemma BackfillRound(e: Env, db: Db, i: int, k: int, m: Mark, n: Mark)
    requires Pair(db, i, k, m, n) && e.statx(Loc(i)) == Ok(Ident(i, m.size))
    requires n.state.Sized? && n.hash.None? && n.size == 10 && e.open(Loc(k)) == Ok(File(k, n.size))
    ensures Perform(db, OneRound(e)) == Backfilled(db, i, k)
  {
    var main := Cas(Id(i), Sized, Sized, Ready(Some(NOW)).(heavySince := Put(None)));
    var mend := Cas(Id(k), Sized, Sized, MEND);
    PairStep(e, db, i, k, m, n);
    MendsOne(e, db, i, k, n);
    RoundIs(db, e, Id(i), Transition(main, NOW, None, [mend]));
    ApplyPair(db, main, mend, NOW);
  }

  lemma BackfillTable(db: Db, ms: seq<Mark>, gs: seq<(nat, int)>, i: int, k: int)
    requires Table(db, ms, gs) && Alike(ms, i, k) && Id(i) in db.rows && Id(k) in db.rows
    requires ms[i - 1].state.Sized? && ms[i - 1].waits && ms[k - 1].state.Sized?
    ensures Table(Backfilled(db, i, k), ms[k - 1 := ms[k - 1].(hash := Some(H))], gs)
  {
    var main := Cas(Id(i), Sized, Sized, Ready(Some(NOW)).(heavySince := Put(None)));
    var mend := Cas(Id(k), Sized, Sized, MEND);
    var n := ms[k - 1].(hash := Some(H));
    Patched(db.rows[Id(i)], i, ms[i - 1], main.patch, Sized, ms[i - 1]);
    Patched(db.rows[Id(k)], k, ms[k - 1], MEND, Sized, n);
    TwoRows(db, ms, gs, i, PatchRow(db.rows[Id(i)], main, NOW), ms[i - 1], k, PatchRow(db.rows[Id(k)], mend, NOW), n);
    assert ms[i - 1 := ms[i - 1]] == ms;
  }

  /** The row's only candidate is read, and gets its hash. */
  lemma Backfills(db: Db, ms: seq<Mark>, gs: seq<(nat, int)>, i: int, k: int, sizes: seq<nat>,
        op: Op, ms': seq<Mark>)
    requires Table(db, ms, gs) && FirstDue(ms, i) && Meets(ms, gs, i, k, sizes)
    requires ms[k - 1].state.Sized? && ms[k - 1].hash.None? && k <= |sizes| && ms[k - 1].size == sizes[k - 1] == 10
    requires op == OneRound(Still(sizes)) && ms' == ms[k - 1 := ms[k - 1].(hash := Some(H))]
    ensures Table(Perform(db, op), ms', gs)
  {
    BackfillTable(db, ms, gs, i, k);
    MeetsPair(db, ms, gs, i, k, sizes);
    BackfillStill(db, i, k, ms[i - 1], ms[k - 1], sizes);
  }

  lemma BackfillStill(db: Db, i: int, k: int, m: Mark, n: Mark, sizes: seq<nat>)
    requires Pair(db, i, k, m, n) && i <= |sizes| && k <= |sizes| && m.size == sizes[i - 1] > 0
    requires n.state.Sized? && n.hash.None? && n.size == sizes[k - 1] == 10
    ensures Perform(db, OneRound(Still(sizes))) == Backfilled(db, i, k)
  {
    BackfillRound(Still(sizes), db, i, k, m, n);
  }

  /** What a patch without an identity makes of a marked row. */
  lemma Patched(r: Row, i: int, m: Mark, p: Patch, to: State, m': Mark)
    requires Is(r, i, m) && p.identity.Keep? && p.enq.Keep? && p.skipReason.Keep? && !to.Settling?
    requires m'.state == to && m'.size == m.size && m'.hash == Write(p.sparse, m.hash)
             && m'.group == Write(p.group, m.group)
    requires match p.readyAt case Keep => m'.waits == m.waits case Put(at) => at == if m'.waits then Some(NOW) else None
    requires m'.prev.Some? ==> (match p.prev case Keep => m.prev == m'.prev case Put(s) => s == m'.prev)
    ensures Is(PatchRow(r, Cas(Id(i), m.state, to, p), NOW), i, m')
  {
  }

  lemma TwinsFound(e: Env, db: Db, i: int, k: int, m: Mark, n: Mark)
    requires Id(i) in db.rows && Id(k) in db.rows && i != k
    requires Is(db.rows[Id(i)], i, m) && Is(db.rows[Id(k)], k, n) && n.hash == Some(H)
    ensures AmongCandidates(CTX, e, db, Id(i), H, [Id(k)]) == Ok(Commit(Founding(db, i, k)))
  {
    OneTwin(db, Id(i), Id(k));
    assert FirstUnhashed(db.rows, [Id(k)]) == None;
    assert WithHash(db.rows, [Id(k)], H) == [Id(k)];
  }

  lemma OneTwin(db: Db, i: RowId, k: RowId)
    requires i in db.rows && k in db.rows
    ensures ChooseCanonical(db.rows, i, [k])
            == if Less(OriginRank(db.rows[k], k), OriginRank(db.rows[i], i)) then k else i
    ensures forall origin :: TwinMoves(CTX, db.rows, origin, [k]) == [TwinMove(CTX, db.rows, origin, k)]
  {
    assert [k][..0] == [];
    assert ChooseCanonical(db.rows, i, []) == i;
  }

  lemma Loses(db: Db, ms: seq<Mark>, gs: seq<(nat, int)>, i: int,
        op: Op, ms': seq<Mark>)
    requires Table(db, ms, gs) && 1 <= i <= |ms| && ms[i - 1].state.Canonical?
    requires op == LoseFile(Loc(i), NOW)
    requires ms' == ms[i - 1 := ms[i - 1].(state := Missing, prev := Some(Canonical), waits := false)]
    ensures Table(Perform(db, op), ms', gs)
  {
    var m := ms[i - 1].(state := Missing, prev := Some(Canonical), waits := false);
    assert Is(db.rows[Id(i)], i, ms[i - 1]);
    var r := SetMissing(db.rows[Id(i)], NOW);
    forall j | j in db.rows && j != Id(i) ensures db.rows[j].loc != Loc(i) {
      assert Is(db.rows[j], j.n, ms[j.n - 1]);
    }
    assert Perform(db, LoseFile(Loc(i), NOW)) == db.(rows := db.rows[Id(i) := r]);
    OneRow(db, ms, gs, i, r, m);
  }

  /** The group's canonical row is another row on disk. */
  ghost predicate Joinable(ms: seq<Mark>, gs: seq<(nat, int)>, i: int, g: int) {
    && 1 <= i <= |ms| && OneGroup(gs, ms[i - 1].size, g) && 1 <= gs[g - 1].1 <= |ms| && gs[g - 1].1 != i
    && var k := ms[gs[g - 1].1 - 1];
       k.group == Some(Id(g)) && !k.state.OffDisk()
  }

  lemma JoinsStep(db: Db, ms: seq<Mark>, gs: seq<(nat, int)>, i: int, g: int, e: Env)
    requires Table(db, ms, gs) && Joinable(ms, gs, i, g) && ms[i - 1].state.Sized? && ms[i - 1].hash == Some(H)
    requires e.statx(Loc(i)) == Ok(Ident(i, ms[i - 1].size))
    ensures Id(i) in db.rows && Step(CTX, e, db, Id(i)) == Rejoin(CTX, Id(i), Id(g))
  {
    var k := gs[g - 1].1;
    assert Is(db.rows[Id(i)], i, ms[i - 1]) && Is(db.rows[Id(k)], k, ms[k - 1]);
    TheGroup(db, ms, gs, ms[i - 1].size, g);
    assert CanonicalMember(db, Id(g)) == Some(Id(k));
    SizedRejoinsIff(CTX, e, db, Id(i), Id(g));
  }

  lemma Joins(db: Db, ms: seq<Mark>, gs: seq<(nat, int)>, i: int, g: int, sizes: seq<nat>,
        op: Op, ms': seq<Mark>)
    requires Table(db, ms, gs) && FirstDue(ms, i) && |ms| <= |sizes| && Joinable(ms, gs, i, g)
    requires ms[i - 1].state.Sized? && ms[i - 1].hash == Some(H) && ms[i - 1].size == sizes[i - 1] > 0
    requires op == OneRound(Still(sizes)) && ms' == ms[i - 1 := ms[i - 1].(state := Hashed, group := Some(Id(g)))]
    ensures Table(Perform(db, op), ms', gs)
  {
    var p := Ready(Some(NOW)).(group := Put(Some(Id(g))));
    var m := ms[i - 1].(state := Hashed, group := Some(Id(g)));
    InTable(db, ms, gs, i);
    Patched(db.rows[Id(i)], i, ms[i - 1], p, Hashed, m);
    StillShows(sizes, i);
    JoinsStep(db, ms, gs, i, g, Still(sizes));
    Moves(db, ms, gs, i, Still(sizes), Hashed, p, m);
  }

  lemma FindsNobody(db: Db, ms: seq<Mark>, gs: seq<(nat, int)>, i: int, sizes: seq<nat>,
        op: Op, ms': seq<Mark>)
    requires Table(db, ms, gs) && FirstDue(ms, i) && |ms| <= |sizes| && |ms| <= 3 && Peer(ms, i, 0)
    requires ms[i - 1].state.Sized? && ms[i - 1].hash == Some(H) && ms[i - 1].size == sizes[i - 1] > 0
    requires forall x :: 0 <= x < |gs| ==> gs[x].0 != ms[i - 1].size
    requires op == OneRound(Still(sizes)) && ms' == ms[i - 1 := ms[i - 1].(state := Distinct, waits := false)]
    ensures Table(Perform(db, op), ms', gs)
  {
    assert Is(db.rows[Id(i)], i, ms[i - 1]);
    NoGroup(db, ms, gs, ms[i - 1].size);
    FindsPeers(db, ms, gs, i, 0);
    Moves(db, ms, gs, i, Still(sizes), Distinct, Ready(None), ms[i - 1].(state := Distinct, waits := false));
  }

  /** The file grows between the `statx` and the `open` of its settling step. */
  lemma GrowsSettling(db: Db, ms: seq<Mark>, gs: seq<(nat, int)>, i: int, seen: seq<nat>, atOpen: seq<nat>,
        op: Op, ms': seq<Mark>)
    requires Table(db, ms, gs) && FirstDue(ms, i) && |ms| <= |seen| == |atOpen|
    requires ms[i - 1].state.Settling? && ms[i - 1].size == seen[i - 1] > 0 && atOpen[i - 1] > 0 && i <= 3
    requires op == OneRound(Disk(seen, atOpen, Ok(Same(0))))
             && ms' == ms[i - 1 := ms[i - 1].(state := Sized, size := atOpen[i - 1])]
    ensures Table(Perform(db, op), ms', gs)
  {
    var now := Ident(i, atOpen[i - 1]);
    var p := Ready(Some(NOW)).(identity := Put(now), enq := Put(Some(now.Print())), magicOk := Put(true),
                               skipReason := Put(None));
    assert Is(db.rows[Id(i)], i, ms[i - 1]);
    Moves(db, ms, gs, i, Disk(seen, atOpen, Ok(Same(0))), Sized, p, ms[i - 1].(state := Sized, size := atOpen[i - 1]));
  }

  function Restore(i: int, size: nat): Op
    requires i > 0
  {
    UpsertPending(Ident(i, size), Loc(i), NOW, 0, NOW, Local)
  }

  lemma Restores(db: Db, ms: seq<Mark>, gs: seq<(nat, int)>, i: int,
        op: Op, ms': seq<Mark>)
    requires Table(db, ms, gs) && 1 <= i <= |ms| && ms[i - 1].state.Missing? && ms[i - 1].prev == Some(Missing)
    requires op == Restore(i, ms[i - 1].size) && ms' == ms[i - 1 := ms[i - 1].(state := Settling, waits := true)]
    ensures Table(Perform(db, op), ms', gs)
  {
    var m := ms[i - 1].(state := Settling, waits := true);
    assert Is(db.rows[Id(i)], i, ms[i - 1]);
    var f := FindByKey(db.rows, FileKey(0, i));
    assert f.Some? && Is(db.rows[f.value], f.value.n, ms[f.value.n - 1]);
    assert f == Some(Id(i));
    var r := Reseen(db.rows[Id(i)], Ident(i, m.size), Loc(i), NOW, 0, NOW, Local);
    assert db.rows[Id(i)].Print().Matches(Ident(i, m.size).Print(), Local);
    assert Perform(db, Restore(i, m.size)).rows == db.rows[Id(i) := r];
    OneRow(db, ms, gs, i, r, m);
  }

  /** Marks after a group is founded: the acting row and the origin are in it, a twin keeps the group it had. */
  function Founded(ms: seq<Mark>, i: int, k: int, g: GroupId): seq<Mark>
    requires 1 <= i <= |ms| && 1 <= k <= |ms| && i != k
  {
    if i > k then
      ms[i - 1 := ms[i - 1].(state := Canonical, waits := false, group := Some(g))]
        [k - 1 := ms[k - 1].(state := Hashed, waits := true)]
    else
      ms[i - 1 := ms[i - 1].(state := Hashed, waits := true, group := Some(g))]
        [k - 1 := ms[k - 1].(state := Canonical, waits := false, group := Some(g))]
  }

  lemma GroupAdded(db: Db, ms: seq<Mark>, gs: seq<(nat, int)>, g: Group, size: nat, k: int)
    requires Table(db, ms, gs) && KeyedAs(g, 0, size, H) && g.canonical == Some(Id(k))
    ensures Table(db.(groups := db.groups[Id(|gs| + 1) := g]), ms, gs + [(size, k)])
  {
  }

  /** File numbers grow with age. */
  function Older(i: int, k: int): int { if i > k then i else k }

  function FoundMain(i: int, k: int): Cas { MakeGroupMain(CTX, Id(i), Id(Older(i, k))) }

  function FoundTwin(db: Db, i: int, k: int): Cas
    requires Id(k) in db.rows
  {
    TwinMove(CTX, db.rows, Id(Older(i, k)), Id(k))
  }

  function Founding(db: Db, i: int, k: int): Transition
    requires Id(k) in db.rows
  {
    Transition(FoundMain(i, k), NOW, Some(Create(Id(Older(i, k)), H, HASH_VERSION)), [FoundTwin(db, i, k)])
  }

  function FoundedDb(db: Db, i: int, k: int, gid: GroupId): Db
    requires Id(i) in db.rows && Id(k) in db.rows
  {
    var r, s := PatchRow(db.rows[Id(i)], FoundMain(i, k), NOW), PatchRow(db.rows[Id(k)], FoundTwin(db, i, k), NOW);
    Db(db.rows[Id(i) := r.(group := Some(gid))][Id(k) := if i > k then s else s.(group := Some(gid))],
       db.groups[gid := Group(r.domain, r.size, H, HASH_VERSION, None, Some(Id(Older(i, k))), None, NOW)])
  }

  lemma FoundsDb(db: Db, i: int, k: int, gid: GroupId)
    requires Id(i) in db.rows && Id(k) in db.rows && i != k && db.rows[Id(i)].state.Sized?
    requires NextId(db.groups.Keys) == gid
    ensures Apply(db, Founding(db, i, k)) == Applied(FoundedDb(db, i, k, gid), true)
  {
    TwinCas(db, FoundMain(i, k), FoundTwin(db, i, k));
    ApplyCreate(db, FoundMain(i, k), [FoundTwin(db, i, k)], Id(Older(i, k)), H, HASH_VERSION, NOW);
    assert Apply(db, Founding(db, i, k)).db.rows == FoundedDb(db, i, k, gid).rows;
  }

  lemma FoundsStill(db: Db, i: int, k: int, m: Mark, n: Mark, sizes: seq<nat>, gid: GroupId)
    requires Pair(db, i, k, m, n) && i <= |sizes| && m.size == sizes[i - 1] > 0 && n.hash == Some(H)
    requires NextId(db.groups.Keys) == gid
    ensures Perform(db, OneRound(Still(sizes))) == FoundedDb(db, i, k, gid)
  {
    PairStep(Still(sizes), db, i, k, m, n);
    TwinsFound(Still(sizes), db, i, k, m, n);
    RoundIs(db, Still(sizes), Id(i), Founding(db, i, k));
    FoundsDb(db, i, k, gid);
  }

  /** The two rows once the group is founded, and their marks. */
  function FounderRow(db: Db, i: int, k: int, gid: GroupId): Row
    requires Id(i) in db.rows
  {
    PatchRow(db.rows[Id(i)], FoundMain(i, k), NOW).(group := Some(gid))
  }

  function FellowRow(db: Db, i: int, k: int, gid: GroupId): Row
    requires Id(k) in db.rows
  {
    var s := PatchRow(db.rows[Id(k)], FoundTwin(db, i, k), NOW);
    if i > k then s else s.(group := Some(gid))
  }

  function FounderMark(m: Mark, i: int, k: int, gid: GroupId): Mark {
    m.(state := if i > k then Canonical else Hashed, waits := i <= k, group := Some(gid))
  }

  function FellowMark(n: Mark, i: int, k: int, gid: GroupId): Mark {
    if i > k then n.(state := Hashed, waits := true) else n.(state := Canonical, waits := false, group := Some(gid))
  }

  lemma FounderIs(db: Db, i: int, k: int, m: Mark, gid: GroupId)
    requires Id(i) in db.rows && Is(db.rows[Id(i)], i, m) && m.state.Sized? && i != k
    ensures Is(FounderRow(db, i, k, gid), i, FounderMark(m, i, k, gid))
  {
    var main := FoundMain(i, k);
    Patched(db.rows[Id(i)], i, m, main.patch, main.to, m.(state := main.to, waits := main.to.Hashed?));
  }

  lemma FellowIs(db: Db, i: int, k: int, n: Mark, gid: GroupId)
    requires Id(k) in db.rows && Is(db.rows[Id(k)], k, n) && i != k
    ensures Is(FellowRow(db, i, k, gid), k, FellowMark(n, i, k, gid))
  {
    var twin := FoundTwin(db, i, k);
    Patched(db.rows[Id(k)], k, n, twin.patch, twin.to, n.(state := twin.to, waits := twin.to.Hashed?));
  }

  lemma FoundsTable(db: Db, ms: seq<Mark>, gs: seq<(nat, int)>, i: int, k: int)
    requires Table(db, ms, gs) && Alike(ms, i, k) && Id(i) in db.rows && Id(k) in db.rows && ms[i - 1].state.Sized?
    ensures Table(FoundedDb(db, i, k, Id(|gs| + 1)), Founded(ms, i, k, Id(|gs| + 1)),
                  gs + [(ms[i - 1].size, Older(i, k))])
  {
    var gid := Id(|gs| + 1);
    FounderIs(db, i, k, ms[i - 1], gid);
    FellowIs(db, i, k, ms[k - 1], gid);
    FoundedRows(db, ms, gs, i, k, gid, FounderRow(db, i, k, gid), FounderMark(ms[i - 1], i, k, gid),
                FellowRow(db, i, k, gid), FellowMark(ms[k - 1], i, k, gid));
  }

  lemma FoundedRows(db: Db, ms: seq<Mark>, gs: seq<(nat, int)>, i: int, k: int, gid: GroupId,
                    r: Row, m: Mark, s: Row, n: Mark)
    requires Table(db, ms, gs) && Alike(ms, i, k) && Id(i) in db.rows && Id(k) in db.rows
    requires gid == Id(|gs| + 1) && Is(r, i, m) && Is(s, k, n)
    requires r == FounderRow(db, i, k, gid) && s == FellowRow(db, i, k, gid)
    requires m == FounderMark(ms[i - 1], i, k, gid) && n == FellowMark(ms[k - 1], i, k, gid)
    ensures Table(FoundedDb(db, i, k, gid), Founded(ms, i, k, gid), gs + [(ms[i - 1].size, Older(i, k))])
  {
    TwoRows(db, ms, gs, i, r, m, k, s, n);
    var g := Group(r.domain, r.size, H, HASH_VERSION, None, Some(Id(Older(i, k))), None, NOW);
    GroupAdded(db.(rows := db.rows[Id(i) := r][Id(k) := s]), ms[i - 1 := m][k - 1 := n], gs, g, ms[i - 1].size,
               Older(i, k));
  }

  lemma Founds(db: Db, ms: seq<Mark>, gs: seq<(nat, int)>, i: int, k: int, sizes: seq<nat>,
        op: Op, ms': seq<Mark>, gs': seq<(nat, int)>)
    requires Table(db, ms, gs) && FirstDue(ms, i) && Meets(ms, gs, i, k, sizes) && ms[k - 1].hash == Some(H)
    requires op == OneRound(Still(sizes)) && ms' == Founded(ms, i, k, Id(|gs| + 1))
    requires gs' == gs + [(ms[i - 1].size, Older(i, k))]
    ensures Table(Perform(db, op), ms', gs')
  {
    NextIdIs(db.groups.Keys, |gs| + 1);
    MeetsPair(db, ms, gs, i, k, sizes);
    FoundsStill(db, i, k, ms[i - 1], ms[k - 1], sizes, Id(|gs| + 1));
    FoundsTable(db, ms, gs, i, k);
  }

  /** One other row, named once. */
  lemma TwinCas(db: Db, main: Cas, twin: Cas)
    requires CasHolds(db.rows, main) && CasHolds(db.rows, twin) && main.id != twin.id
    ensures CasAll(db.rows[main.id := PatchRow(db.rows[main.id], main, NOW)], [twin], NOW)
            == db.rows[main.id := PatchRow(db.rows[main.id], main, NOW)]
                      [twin.id := PatchRow(db.rows[twin.id], twin, NOW)]
  {
    assert [twin][1..] == [];
    var mid := db.rows[main.id := PatchRow(db.rows[main.id], main, NOW)];
    assert CasAll(mid, [twin], NOW) == CasUpdate(mid, twin, NOW);
  }

  // ---------------------------------------------------------------- an orphaned row takes over

  /** Row `i` waits in group `g`, whose canonical row `k` is off disk. */
  ghost predicate Waits(db: Db, i: int, k: int, g: int, m: Mark, n: Mark) {
    && i != k && Id(i) in db.rows && Id(k) in db.rows && Is(db.rows[Id(i)], i, m) && Is(db.rows[Id(k)], k, n)
    && m.state.Hashed? && m.group == n.group == Some(Id(g)) && n.state.Missing?
    && Id(g) in db.groups && db.groups[Id(g)].canonical == Some(Id(k))
    && NextReady(db.rows, NOW, true, 0) == Some(Id(i))
  }

  function TakenOver(db: Db, i: int, k: int, g: int): Db
    requires Id(i) in db.rows && Id(k) in db.rows && Id(g) in db.groups
  {
    var r := PatchRow(db.rows[Id(i)], Cas(Id(i), Hashed, Canonical, Ready(None)), NOW);
    var s := PatchRow(db.rows[Id(k)], Cas(Id(k), Missing, Missing, Ready(None).(prev := Put(Some(Missing)))), NOW);
    Db(db.rows[Id(i) := r.(group := Some(Id(g)))][Id(k) := s],
       db.groups[Id(g) := db.groups[Id(g)].(canonical := Some(Id(i)))])
  }

  lemma WaitsOrphaned(e: Env, db: Db, i: int, k: int, g: int, m: Mark, n: Mark)
    requires Waits(db, i, k, g, m, n) && e.open(Loc(k)) == Err(NotFound)
    ensures Orphaned(CTX, e, db, Id(i))
    ensures Step(CTX, e, db, Id(i)) == Replace(CTX, Id(i), Id(k), db.rows[Id(k)], Id(g), Missing,
                                               Ready(None).(prev := Put(Some(Missing))))
  {
    assert CanonicalMember(db, Id(g)) == Some(Id(k));
  }

  lemma TakeOverDb(e: Env, db: Db, i: int, k: int, g: int, m: Mark, n: Mark)
    requires Waits(db, i, k, g, m, n) && e.open(Loc(k)) == Err(NotFound)
    ensures Perform(db, OneRound(e)) == TakenOver(db, i, k, g)
  {
    var main := Cas(Id(i), Hashed, Canonical, Ready(None));
    var other := Cas(Id(k), Missing, Missing, Ready(None).(prev := Put(Some(Missing))));
    var t := Transition(main, NOW, Some(SetCanonical(Id(g), Id(i))), [other]);
    WaitsOrphaned(e, db, i, k, g, m, n);
    TwinCas(db, main, other);
    RoundIs(db, e, Id(i), t);
    assert Apply(db, t).db.rows == TakenOver(db, i, k, g).rows;
  }

  lemma TakeOverStill(sizes: seq<nat>, db: Db, i: int, k: int, g: int, m: Mark, n: Mark)
    requires Waits(db, i, k, g, m, n) && k <= |sizes| && sizes[k - 1] == 0
    ensures Perform(db, OneRound(Still(sizes))) == TakenOver(db, i, k, g)
  {
    TakeOverDb(Still(sizes), db, i, k, g, m, n);
  }

  lemma GroupRepointed(db: Db, ms: seq<Mark>, gs: seq<(nat, int)>, g: int, i: int)
    requires Table(db, ms, gs) && 1 <= g <= |gs|
    ensures Id(g) in db.groups
    ensures Table(db.(groups := db.groups[Id(g) := db.groups[Id(g)].(canonical := Some(Id(i)))]), ms,
                  gs[g - 1 := (gs[g - 1].0, i)])
  {
    assert Id(g) in db.groups;
  }

  lemma TakeOverTable(db: Db, ms: seq<Mark>, gs: seq<(nat, int)>, i: int, k: int, g: int)
    requires Table(db, ms, gs) && 1 <= i <= |ms| && 1 <= k <= |ms| && 1 <= g <= |gs| && i != k
    requires ms[i - 1].state.Hashed? && ms[k - 1].state.Missing?
    ensures Id(i) in db.rows && Id(k) in db.rows && Id(g) in db.groups
    ensures Table(TakenOver(db, i, k, g),
                  ms[i - 1 := ms[i - 1].(state := Canonical, waits := false, group := Some(Id(g)))]
                    [k - 1 := ms[k - 1].(prev := Some(Missing), waits := false)],
                  gs[g - 1 := (gs[g - 1].0, i)])
  {
    InTable(db, ms, gs, i);
    InTable(db, ms, gs, k);
    var r := PatchRow(db.rows[Id(i)], Cas(Id(i), Hashed, Canonical, Ready(None)), NOW);
    var s := PatchRow(db.rows[Id(k)], Cas(Id(k), Missing, Missing, Ready(None).(prev := Put(Some(Missing)))), NOW);
    var m, n := ms[i - 1].(state := Canonical, waits := false), ms[k - 1].(prev := Some(Missing), waits := false);
    Patched(db.rows[Id(i)], i, ms[i - 1], Ready(None), Canonical, m);
    Patched(db.rows[Id(k)], k, ms[k - 1], Ready(None).(prev := Put(Some(Missing))), Missing, n);
    TwoRows(db, ms, gs, i, r.(group := Some(Id(g))), m.(group := Some(Id(g))), k, s, n);
    GroupRepointed(db.(rows := db.rows[Id(i) := r.(group := Some(Id(g)))][Id(k) := s]),
                   ms[i - 1 := m.(group := Some(Id(g)))][k - 1 := n], gs, g, i);
  }

  /** Row `i` waits in group `g`, and the group's canonical row `k` is missing. */
  ghost predicate Deserted(ms: seq<Mark>, gs: seq<(nat, int)>, i: int, k: int, g: int) {
    && 1 <= i <= |ms| && 1 <= k <= |ms| && i != k && 1 <= g <= |gs| && gs[g - 1].1 == k
    && ms[i - 1].state.Hashed? && ms[k - 1].state.Missing? && ms[i - 1].group == ms[k - 1].group == Some(Id(g))
  }

  lemma WaitsIn(db: Db, ms: seq<Mark>, gs: seq<(nat, int)>, i: int, k: int, g: int)
    requires Table(db, ms, gs) && FirstDue(ms, i) && Deserted(ms, gs, i, k, g)
    ensures Waits(db, i, k, g, ms[i - 1], ms[k - 1])
  {
    Next(db, ms, gs, i);
    InTable(db, ms, gs, i);
    InTable(db, ms, gs, k);
    assert Id(g) in db.groups;
  }

  lemma TakesOver(db: Db, ms: seq<Mark>, gs: seq<(nat, int)>, i: int, k: int, g: int, sizes: seq<nat>,
        op: Op, ms': seq<Mark>, gs': seq<(nat, int)>)
    requires Table(db, ms, gs) && FirstDue(ms, i) && Deserted(ms, gs, i, k, g) && k <= |sizes| && sizes[k - 1] == 0
    requires op == OneRound(Still(sizes))
    requires ms' == ms[i - 1 := ms[i - 1].(state := Canonical, waits := false)]
                      [k - 1 := ms[k - 1].(prev := Some(Missing), waits := false)]
    requires gs' == gs[g - 1 := (gs[g - 1].0, i)]
    ensures Table(Perform(db, op), ms', gs')
  {
    WaitsIn(db, ms, gs, i, k, g);
    TakeOverStill(sizes, db, i, k, g, ms[i - 1], ms[k - 1]);
    TakeOverTable(db, ms, gs, i, k, g);
  }

  // ---------------------------------------------------------------- steps on the marks alone

  datatype Marks = Marks(ms: seq<Mark>, gs: seq<(nat, int)>)

  /** The steps of the run; `sizes` says which files are there during a round. */
  datatype Act =
    | Find(size: nat)
    | Read(i: int, sizes: seq<nat>)
    | ReadTwin(i: int, k: int, sizes: seq<nat>)
    | Found(i: int, k: int, sizes: seq<nat>)
    | Lose(i: int)
    | Join(i: int, g: int, sizes: seq<nat>)
    | FindNobody(i: int, sizes: seq<nat>)
    | Grow(i: int, seen: seq<nat>, atOpen: seq<nat>)
    | FindAgain(i: int)
    | TakeOver(i: int, k: int, g: int, sizes: seq<nat>)

  /** The acting row is the first in the queue and its own file is there, as long as its row says. */
  ghost predicate Acts(s: Marks, i: int, sizes: seq<nat>) {
    FirstDue(s.ms, i) && |s.ms| <= |sizes| && |s.ms| <= 3 && s.ms[i - 1].size == sizes[i - 1] > 0
  }

  ghost predicate NoGroupOf(s: Marks, size: nat) {
    forall x :: 0 <= x < |s.gs| ==> s.gs[x].0 != size
  }

  ghost predicate Can(s: Marks, a: Act) {
    match a
    case Find(_) => true
    case Read(i, sizes) =>
      Acts(s, i, sizes) && s.ms[i - 1].state.Sized? && s.ms[i - 1].hash.None? && s.ms[i - 1].size == 10
    case ReadTwin(i, k, sizes) =>
      && Acts(s, i, sizes) && Meets(s.ms, s.gs, i, k, sizes)
      && s.ms[k - 1].state.Sized? && s.ms[k - 1].hash.None? && s.ms[k - 1].size == sizes[k - 1] == 10
    case Found(i, k, sizes) => Acts(s, i, sizes) && Meets(s.ms, s.gs, i, k, sizes) && s.ms[k - 1].hash == Some(H)
    case Lose(i) => 1 <= i <= |s.ms| && s.ms[i - 1].state.Canonical?
    case Join(i, g, sizes) =>
      Acts(s, i, sizes) && Joinable(s.ms, s.gs, i, g) && s.ms[i - 1].state.Sized? && s.ms[i - 1].hash == Some(H)
    case FindNobody(i, sizes) =>
      && Acts(s, i, sizes) && Peer(s.ms, i, 0) && s.ms[i - 1].state.Sized? && s.ms[i - 1].hash == Some(H)
      && NoGroupOf(s, s.ms[i - 1].size)
    case Grow(i, seen, atOpen) =>
      Acts(s, i, seen) && |seen| == |atOpen| && atOpen[i - 1] > 0 && s.ms[i - 1].state.Settling?
    case FindAgain(i) => 1 <= i <= |s.ms| && s.ms[i - 1].state.Missing? && s.ms[i - 1].prev == Some(Missing)
    case TakeOver(i, k, g, sizes) =>
      Acts(s, i, sizes) && Deserted(s.ms, s.gs, i, k, g) && k <= |sizes| && sizes[k - 1] == 0
  }

  function Mark1(s: Marks, i: int, m: Mark): Marks
    requires 1 <= i <= |s.ms|
  {
    s.(ms := s.ms[i - 1 := m])
  }

  function AfterFounding(s: Marks, i: int, k: int): Marks
    requires 1 <= i <= |s.ms| && 1 <= k <= |s.ms| && i != k
  {
    Marks(Founded(s.ms, i, k, Id(|s.gs| + 1)), s.gs + [(s.ms[i - 1].size, Older(i, k))])
  }

  ghost function Do(s: Marks, a: Act): Marks
    requires Can(s, a)
  {
    match a
    case Find(size) => s.(ms := s.ms + [Mark(Sized, None, true, size, None, None)])
    case Read(i, _) => Mark1(s, i, s.ms[i - 1].(hash := Some(H)))
    case ReadTwin(_, k, _) => Mark1(s, k, s.ms[k - 1].(hash := Some(H)))
    case Found(i, k, _) => AfterFounding(s, i, k)
    case Lose(i) => Mark1(s, i, s.ms[i - 1].(state := Missing, prev := Some(Canonical), waits := false))
    case Join(i, g, _) => Mark1(s, i, s.ms[i - 1].(state := Hashed, group := Some(Id(g))))
    case FindNobody(i, _) => Mark1(s, i, s.ms[i - 1].(state := Distinct, waits := false))
    case Grow(i, _, atOpen) => Mark1(s, i, s.ms[i - 1].(state := Sized, size := atOpen[i - 1]))
    case FindAgain(i) => Mark1(s, i, s.ms[i - 1].(state := Settling, waits := true))
    case TakeOver(i, k, g, _) =>
      Marks(s.ms[i - 1 := s.ms[i - 1].(state := Canonical, waits := false)]
                [k - 1 := s.ms[k - 1].(prev := Some(Missing), waits := false)],
            s.gs[g - 1 := (s.gs[g - 1].0, i)])
  }

  ghost function OpOf(s: Marks, a: Act): Op
    requires Can(s, a)
  {
    match a
    case Find(size) => Insert(|s.ms| + 1, size)
    case Lose(i) => LoseFile(Loc(i), NOW)
    case FindAgain(i) => Restore(i, s.ms[i - 1].size)
    case Grow(_, seen, atOpen) => OneRound(Disk(seen, atOpen, Ok(Same(0))))
    case _ => OneRound(Still(a.sizes))
  }

  lemma NewsSimulates(db: Db, s: Marks, a: Act)
    requires Table(db, s.ms, s.gs) && Can(s, a) && (a.Find? || a.Lose? || a.FindAgain?)
    ensures Table(Perform(db, OpOf(s, a)), Do(s, a).ms, Do(s, a).gs)
  {
    match a
    case Find(size) => Inserts(db, s.ms, s.gs, size, OpOf(s, a), Do(s, a).ms);
    case Lose(i) => Loses(db, s.ms, s.gs, i, OpOf(s, a), Do(s, a).ms);
    case FindAgain(i) => Restores(db, s.ms, s.gs, i, OpOf(s, a), Do(s, a).ms);
  }

  lemma ReadSimulates(db: Db, s: Marks, a: Act)
    requires Table(db, s.ms, s.gs) && Can(s, a) && (a.Read? || a.ReadTwin? || a.Grow?)
    ensures Table(Perform(db, OpOf(s, a)), Do(s, a).ms, Do(s, a).gs)
  {
    match a
    case Read(i, sizes) => Hashes(db, s.ms, s.gs, i, sizes, OpOf(s, a), Do(s, a).ms);
    case ReadTwin(i, k, sizes) => Backfills(db, s.ms, s.gs, i, k, sizes, OpOf(s, a), Do(s, a).ms);
    case Grow(i, seen, atOpen) => GrowsSettling(db, s.ms, s.gs, i, seen, atOpen, OpOf(s, a), Do(s, a).ms);
  }

  lemma FoundSimulates(db: Db, s: Marks, a: Act)
    requires Table(db, s.ms, s.gs) && Can(s, a) && a.Found?
    ensures Table(Perform(db, OpOf(s, a)), Do(s, a).ms, Do(s, a).gs)
  {
    Founds(db, s.ms, s.gs, a.i, a.k, a.sizes, OpOf(s, a), Do(s, a).ms, Do(s, a).gs);
  }

  lemma TakeOverSimulates(db: Db, s: Marks, a: Act)
    requires Table(db, s.ms, s.gs) && Can(s, a) && a.TakeOver?
    ensures Table(Perform(db, OpOf(s, a)), Do(s, a).ms, Do(s, a).gs)
  {
    TakesOver(db, s.ms, s.gs, a.i, a.k, a.g, a.sizes, OpOf(s, a), Do(s, a).ms, Do(s, a).gs);
  }

  lemma PlaceSimulates(db: Db, s: Marks, a: Act)
    requires Table(db, s.ms, s.gs) && Can(s, a) && (a.Join? || a.FindNobody?)
    ensures Table(Perform(db, OpOf(s, a)), Do(s, a).ms, Do(s, a).gs)
  {
    match a
    case Join(i, g, sizes) => Joins(db, s.ms, s.gs, i, g, sizes, OpOf(s, a), Do(s, a).ms);
    case FindNobody(i, sizes) => FindsNobody(db, s.ms, s.gs, i, sizes, OpOf(s, a), Do(s, a).ms);
  }

  lemma Simulates(db: Db, s: Marks, a: Act)
    requires Table(db, s.ms, s.gs) && Can(s, a)
    ensures OpOk(OpOf(s, a)) && Table(Perform(db, OpOf(s, a)), Do(s, a).ms, Do(s, a).gs)
  {
    if a.Find? || a.Lose? || a.FindAgain? { NewsSimulates(db, s, a); }
    else if a.Read? || a.ReadTwin? || a.Grow? { ReadSimulates(db, s, a); }
    else if a.Found? { FoundSimulates(db, s, a); }
    else if a.TakeOver? { TakeOverSimulates(db, s, a); }
    else { PlaceSimulates(db, s, a); }
  }

  /** Some reachable tables are marked so. */
  ghost predicate Comes(s: Marks) {
    exists db :: IsReachable(db) && Table(db, s.ms, s.gs)
  }

  lemma ActComes(s: Marks, a: Act)
    requires Comes(s) && Can(s, a)
    ensures Comes(Do(s, a))
  {
    var db :| IsReachable(db) && Table(db, s.ms, s.gs);
    Simulates(db, s, a);
    Reaches(db, OpOf(s, a));
  }
}
