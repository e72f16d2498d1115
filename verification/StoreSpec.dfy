/**
 * What each SQL operation does to the tables, as a function from tables to tables.
 * `Store.dfy` holds the class whose methods perform them.
 */
module StoreSpec {
  import opened Wrappers
  import opened Model
  import opened Selection

  // ---------------------------------------------------------------- transitions

  /** The columns a transition may write; `Keep` leaves the column alone. */
  datatype Patch = Patch(
    readyAt: Column<Option<Ts>>, attempts: Column<nat>, heavySince: Column<Option<Ts>>,
    lastError: Column<Option<string>>, skipReason: Column<Option<SkipReason>>,
    identity: Column<Identity>, enq: Column<Option<Fingerprint>>, magicOk: Column<bool>,
    sparse: Column<Option<Hash>>, hashVersion: Column<nat>, full: Column<Option<Hash>>,
    group: Column<Option<GroupId>>, prev: Column<Option<State>>)

  const NO_PATCH := Patch(Keep, Keep, Keep, Keep, Keep, Keep, Keep, Keep, Keep, Keep, Keep, Keep, Keep)

  datatype GroupOp =
    | Create(canonical: RowId, hash: Hash, hashVersion: nat)
    | Join(join: GroupId)
    | SetCanonical(group: GroupId, file: RowId)
    | Leave(leave: GroupId)
    | MarkVerified(verified: GroupId, full: Option<Hash>)

  /** A compare-and-set on one row: taken only if the row is still in state `from`. */
  datatype Cas = Cas(id: RowId, from: State, to: State, patch: Patch)

  datatype Transition = Transition(main: Cas, now: Ts, group: Option<GroupOp>, others: seq<Cas>)

  function PatchRow(r: Row, c: Cas, now: Ts): Row {
    var p := c.patch;
    var s := r.(
      state := c.to,
      updated := now,
      heavySince := match p.heavySince
                    case Put(v) => v
                    case Keep => if c.from != c.to then None else r.heavySince,
      readyAt := Write(p.readyAt, r.readyAt),
      attempts := Write(p.attempts, r.attempts),
      lastError := Write(p.lastError, r.lastError),
      skipReason := Write(p.skipReason, r.skipReason),
      enq := Write(p.enq, r.enq),
      magicOk := match p.magicOk case Put(v) => Some(v) case Keep => r.magicOk,
      sparse := Write(p.sparse, r.sparse),
      hashVersion := match p.hashVersion case Put(v) => Some(v) case Keep => r.hashVersion,
      full := Write(p.full, r.full),
      group := Write(p.group, r.group),
      prev := Write(p.prev, r.prev));
    match p.identity
    case Keep => s
    case Put(i) => s.(size := i.size, mtime := i.mtime, ctime := i.ctime,
                      nlink := i.nlink, uid := i.uid, mode := i.mode)
  }

  predicate CasHolds(rows: map<RowId, Row>, c: Cas) {
    c.id in rows && rows[c.id].state == c.from
  }

  function CasUpdate(rows: map<RowId, Row>, c: Cas, now: Ts): map<RowId, Row> {
    if CasHolds(rows, c) then rows[c.id := PatchRow(rows[c.id], c, now)] else rows
  }

  /** The other rows of a transition, each taken or skipped on its own. */
  function CasAll(rows: map<RowId, Row>, cs: seq<Cas>, now: Ts): map<RowId, Row> {
    if cs == [] then rows else CasAll(CasUpdate(rows, cs[0], now), cs[1..], now)
  }

  predicate GroupOpAllowed(db: Db, row: RowId, op: GroupOp) {
    match op
    case Create(canonical, _, _) => row in db.rows && canonical in db.rows
    case Join(g) => g in db.groups
    case Leave(g) => g in db.groups
    case SetCanonical(g, _) => g in db.groups
    case MarkVerified(g, _) => g in db.groups
  }

  function SetGroup(rows: map<RowId, Row>, id: RowId, g: Option<GroupId>): map<RowId, Row> {
    if id in rows then rows[id := rows[id].(group := g)] else rows
  }

  function ApplyGroupOp(db: Db, row: RowId, op: GroupOp, now: Ts): Db
    requires GroupOpAllowed(db, row, op)
  {
    match op
    case Create(canonical, hash, version) =>
      var gid := NextId(db.groups.Keys);
      var g := Group(db.rows[row].domain, db.rows[row].size, hash, version, None, Some(canonical), None, now);
      Db(SetGroup(SetGroup(db.rows, row, Some(gid)), canonical, Some(gid)), db.groups[gid := g])
    case Join(g) => db.(rows := SetGroup(db.rows, row, Some(g)))
    case SetCanonical(g, file) =>
      Db(SetGroup(db.rows, file, Some(g)), db.groups[g := db.groups[g].(canonical := Some(file))])
    case Leave(g) =>
      Db(SetGroup(db.rows, row, None),
         if db.groups[g].canonical == Some(row) then db.groups[g := db.groups[g].(canonical := None)]
         else db.groups)
    case MarkVerified(g, full) =>
      var was := db.groups[g];
      db.(groups := db.groups[g := was.(
        verifiedAt := if was.verifiedAt.Some? then was.verifiedAt else Some(now),
        full := if was.full.Some? then was.full else full)])
  }

  /** The transaction of `apply`: refused whole, or taken with the answer of the main CAS. */
  datatype ApplyResult = Refused | Applied(db: Db, won: bool)

  function Apply(db: Db, t: Transition): ApplyResult {
    if t.group.Some? && !GroupOpAllowed(db, t.main.id, t.group.value) then Refused
    else if !CasHolds(db.rows, t.main) then Applied(db, false)
    else
      var rows := CasAll(CasUpdate(db.rows, t.main, t.now), t.others, t.now);
      CasAllKeys(CasUpdate(db.rows, t.main, t.now), t.others, t.now);
      var db1 := db.(rows := rows);
      Applied(if t.group.Some? then ApplyGroupOp(db1, t.main.id, t.group.value, t.now) else db1, true)
  }

  lemma CasAllKeys(rows: map<RowId, Row>, cs: seq<Cas>, now: Ts)
    ensures CasAll(rows, cs, now).Keys == rows.Keys
  {
    if cs != [] {
      assert CasUpdate(rows, cs[0], now).Keys == rows.Keys;
      CasAllKeys(CasUpdate(rows, cs[0], now), cs[1..], now);
    }
  }

  ghost predicate DistinctIds(cs: seq<Cas>) {
    forall i, j :: 0 <= i < j < |cs| ==> cs[i].id != cs[j].id
  }

  /** A row that no compare-and-set names keeps its value. */
  lemma CasAllMiss(rows: map<RowId, Row>, cs: seq<Cas>, now: Ts, id: RowId)
    requires id in rows && forall j :: 0 <= j < |cs| ==> cs[j].id != id
    ensures id in CasAll(rows, cs, now) && CasAll(rows, cs, now)[id] == rows[id]
  {
    if cs != [] { CasAllMiss(CasUpdate(rows, cs[0], now), cs[1..], now, id); }
  }

  /** A row that exactly one holding compare-and-set names gets exactly that patch. */
  lemma CasAllHit(rows: map<RowId, Row>, cs: seq<Cas>, now: Ts, j: nat)
    requires j < |cs| && DistinctIds(cs) && CasHolds(rows, cs[j])
    ensures cs[j].id in CasAll(rows, cs, now)
    ensures CasAll(rows, cs, now)[cs[j].id] == PatchRow(rows[cs[j].id], cs[j], now)
  {
    var next := CasUpdate(rows, cs[0], now);
    if j == 0 { CasAllMiss(next, cs[1..], now, cs[0].id); }
    else { CasAllHit(next, cs[1..], now, j - 1); }
  }

  /** A transition with one other row, when both compare-and-sets hold. */
  lemma ApplyPair(db: Db, main: Cas, other: Cas, now: Ts)
    requires CasHolds(db.rows, main) && CasHolds(db.rows, other) && main.id != other.id
    ensures Apply(db, Transition(main, now, None, [other])) ==
            Applied(db.(rows := db.rows[main.id := PatchRow(db.rows[main.id], main, now)]
                                       [other.id := PatchRow(db.rows[other.id], other, now)]), true)
  {
    var mid := CasUpdate(db.rows, main, now);
    assert [other][1..] == [];
    assert CasAll(mid, [other], now) == CasUpdate(mid, other, now);
  }

  /** Inserting a group: who gets its id, and what the group row is. */
  lemma ApplyCreate(db: Db, main: Cas, others: seq<Cas>, origin: RowId, hash: Hash, version: nat, now: Ts)
    requires CasHolds(db.rows, main) && origin in db.rows
    requires forall j :: 0 <= j < |others| ==> others[j].id != main.id
    ensures var a := Apply(db, Transition(main, now, Some(Create(origin, hash, version)), others));
      var gid := NextId(db.groups.Keys);
      var r := PatchRow(db.rows[main.id], main, now);
      var rows := CasAll(db.rows[main.id := r], others, now);
      && rows.Keys == db.rows.Keys
      && a == Applied(Db(SetGroup(rows[main.id := r.(group := Some(gid))], origin, Some(gid)),
                         db.groups[gid := Group(r.domain, r.size, hash, version, None, Some(origin), None, now)]),
                      true)
  {
    var mid := CasUpdate(db.rows, main, now);
    CasAllKeys(mid, others, now);
    CasAllMiss(mid, others, now, main.id);
  }

  /** A group operation changes group columns of rows only. */
  lemma GroupOpRow(db: Db, row: RowId, op: GroupOp, now: Ts, i: RowId)
    requires GroupOpAllowed(db, row, op)
    ensures var a := ApplyGroupOp(db, row, op, now);
      && (i in a.rows <==> i in db.rows)
      && (i in db.rows ==> a.rows[i] == db.rows[i].(group := a.rows[i].group))
  {
  }

  // ---------------------------------------------------------------- queries

  predicate IsDue(r: Row, now: Ts, allowHeavy: bool, maxWait: int) {
    && r.state.Queued()
    && r.readyAt.Some? && r.readyAt.value <= now
    && (allowHeavy || r.state.Settling? || r.state.Sized?
        || (r.heavySince.Some? && r.heavySince.value <= Clamp(now - maxWait)))
  }

  /** `ORDER BY priority, ready_at, id`. */
  function QueueRank(r: Row, id: RowId): Rank {
    Rank(r.priority, if r.readyAt.Some? then r.readyAt.value else 0, 0, id.n)
  }

  function DueRanks(rows: map<RowId, Row>, now: Ts, allowHeavy: bool, maxWait: int): (m: map<RowId, Rank>)
    ensures Keyed(m)
  {
    map i | i in rows && IsDue(rows[i], now, allowHeavy, maxWait)
      :: QueueRank(rows[i], i)
  }

  function NextReady(rows: map<RowId, Row>, now: Ts, allowHeavy: bool, maxWait: int): (r: Option<RowId>)
    ensures r.Some? ==> r.value in rows && IsDue(rows[r.value], now, allowHeavy, maxWait)
    ensures r.Some? ==> forall i :: i in rows && i != r.value && IsDue(rows[i], now, allowHeavy, maxWait) ==>
      Less(QueueRank(rows[r.value], r.value), QueueRank(rows[i], i))
    ensures r.None? ==> forall i :: i in rows ==> !IsDue(rows[i], now, allowHeavy, maxWait)
  {
    var m := DueRanks(rows, now, allowHeavy, maxWait);
    if m == map[] then
      assert forall i :: i in rows && IsDue(rows[i], now, allowHeavy, maxWait) ==> i in m;
      None
    else Some(Least(m))
  }

  /** The row before all other due ones is the one taken. */
  lemma NextReadyIs(rows: map<RowId, Row>, id: RowId, now: Ts, allowHeavy: bool, maxWait: int)
    requires id in rows && IsDue(rows[id], now, allowHeavy, maxWait)
    requires forall j :: j in rows && j != id && IsDue(rows[j], now, allowHeavy, maxWait) ==>
      Less(QueueRank(rows[id], id), QueueRank(rows[j], j))
    ensures NextReady(rows, now, allowHeavy, maxWait) == Some(id)
  {
  }

  predicate KeyedAs(g: Group, domain: nat, size: nat, hash: Hash) {
    g.domain == domain && g.size == size && g.hash == hash
  }

  function GroupsByKey(db: Db, domain: nat, size: nat, hash: Hash): set<GroupId> {
    set g | g in db.groups && KeyedAs(db.groups[g], domain, size, hash)
  }

  /** The first group of a key in id order. */
  function FirstGroup(db: Db, domain: nat, size: nat, hash: Hash): Option<GroupId> {
    var s := GroupsByKey(db, domain, size, hash);
    if s == {} then None else Some(MinId(s))
  }

  /** The first group of a key whose id is larger than `after`. */
  function NextGroup(db: Db, domain: nat, size: nat, hash: Hash, after: GroupId): Option<GroupId> {
    var s := set g | g in GroupsByKey(db, domain, size, hash) && after.n < g.n;
    if s == {} then None else Some(MinId(s))
  }

  /** The member row a group's canonical pointer names. */
  function CanonicalMember(db: Db, g: GroupId): Option<RowId>
    requires g in db.groups
  {
    match db.groups[g].canonical
    case Some(id) => if id in db.rows && db.rows[id].group == Some(g) then Some(id) else None
    case None => None
  }

  datatype Scope = SameOwner | SameShare | SameDomain

  predicate InScope(me: Row, r: Row, scope: Scope) {
    match scope
    case SameOwner => r.uid == me.uid
    case SameShare => r.loc.root == me.loc.root
    case SameDomain => true
  }

  predicate IsCandidate(me: RowId, mine: Row, i: RowId, r: Row, scope: Scope, settledBeforeNs: int) {
    && r.domain == mine.domain && r.size == mine.size && i != me
    && (r.state.Sized? || r.state.Distinct?)
    && r.nlink == 1 && r.mtime <= settledBeforeNs
    && InScope(mine, r, scope)
  }

  /** Sort key `(sparse_hash IS NULL, mtime_ns, first_seen_at, id)`. */
  function Candidates(rows: map<RowId, Row>, me: RowId, scope: Scope, settledBeforeNs: int, limit: nat): (s: seq<RowId>)
    requires me in rows
    ensures forall c :: c in s ==>
      c in rows && IsCandidate(me, rows[me], c, rows[c], scope, settledBeforeNs)
    ensures NoRepeats(s)
  {
    var m := map i | i in rows && IsCandidate(me, rows[me], i, rows[i], scope, settledBeforeNs)
      :: Rank(if rows[i].sparse.None? then 1 else 0, rows[i].mtime, rows[i].firstSeen, i.n);
    TakeLeast(m, limit)
  }

  /** Largest `ready_at` of the settling rows of the same size. */
  function PendingSameSize(rows: map<RowId, Row>, me: RowId, scope: Scope): Option<Ts>
    requires me in rows
  {
    var mine := rows[me];
    var m := map i | i in rows && i != me && rows[i].state.Settling? && rows[i].readyAt.Some?
                     && rows[i].domain == mine.domain && rows[i].size == mine.size
                     && InScope(mine, rows[i], scope)
      :: rows[i].readyAt.value;
    if m == map[] then None else Some(MaxValue(m))
  }

  function FindByKey(rows: map<RowId, Row>, key: FileKey): (r: Option<RowId>)
    ensures r.Some? ==> r.value in rows && rows[r.value].key == key
    ensures r.None? ==> forall i :: i in rows ==> rows[i].key != key
  {
    var s := set i | i in rows && rows[i].key == key;
    if s == {} then
      assert forall i :: i in rows && rows[i].key == key ==> i in s;
      None
    else Some(MinId(s))
  }

  /** Rows at a path, those on disk first, then by id. */
  function FindByPath(rows: map<RowId, Row>, loc: FileLoc): (r: Option<RowId>)
    ensures r.Some? ==> r.value in rows && rows[r.value].loc == loc
    ensures r.Some? ==> forall i :: i in rows && i != r.value && rows[i].loc == loc ==>
      if rows[r.value].Live() then rows[i].Live() ==> r.value.n < i.n else !rows[i].Live() && r.value.n < i.n
    ensures r.None? ==> forall i :: i in rows ==> rows[i].loc != loc
  {
    var m := map i | i in rows && rows[i].loc == loc :: Rank(if rows[i].Live() then 0 else 1, 0, 0, i.n);
    if m == map[] then
      assert forall i :: i in rows && rows[i].loc == loc ==> i in m;
      None
    else
      var k := Least(m);
      assert forall i :: i in rows && rows[i].loc == loc ==> i in m;
      Some(k)
  }
}
