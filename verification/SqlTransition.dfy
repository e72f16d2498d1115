/**
 * The compare-and-set of a transition as SQLite evaluates it: an `UPDATE` whose list of assignments is put together
 * from the patch, guarded by the id and the state the row must still be in.
 */
module SqlTransition {
  import opened Wrappers
  import opened Model
  import opened StoreSpec
  import opened SqlUpsert

  /** The columns a transition may assign. */
  datatype ColumnName =
    | StateColumn | UpdatedAt | HeavyWaitSince | ReadyAt | Attempts | LastError | SkipReasonColumn
    | SizeColumn | MtimeNs | CtimeNs | Nlink | OwnerUid | ModeColumn
    | EnqSize | EnqMtimeNs | EnqCtimeNs | MagicOk | SparseHash | HashVersionColumn | FullHash | GroupIdColumn
    | PrevState

  datatype Assignment = Assignment(column: ColumnName, value: Value)

  function Assign(r: Columns, a: Assignment): Columns {
    match a.column
    case StateColumn => r.(state := a.value)
    case UpdatedAt => r.(updated := a.value)
    case HeavyWaitSince => r.(heavySince := a.value)
    case ReadyAt => r.(readyAt := a.value)
    case Attempts => r.(attempts := a.value)
    case LastError => r.(lastError := a.value)
    case SkipReasonColumn => r.(skipReason := a.value)
    case SizeColumn => r.(size := a.value)
    case MtimeNs => r.(mtime := a.value)
    case CtimeNs => r.(ctime := a.value)
    case Nlink => r.(nlink := a.value)
    case OwnerUid => r.(uid := a.value)
    case ModeColumn => r.(mode := a.value)
    case EnqSize => r.(enqSize := a.value)
    case EnqMtimeNs => r.(enqMtime := a.value)
    case EnqCtimeNs => r.(enqCtime := a.value)
    case MagicOk => r.(magicOk := a.value)
    case SparseHash => r.(sparse := a.value)
    case HashVersionColumn => r.(hashVersion := a.value)
    case FullHash => r.(full := a.value)
    case GroupIdColumn => r.(group := a.value)
    case PrevState => r.(prev := a.value)
  }

  /** `SET a = ?, b = ?, ...`; no column is named twice, so the order does not matter. */
  function Execute(r: Columns, sets: seq<Assignment>): Columns
    decreases |sets|
  {
    if sets == [] then r else Execute(Assign(r, sets[0]), sets[1..])
  }

  lemma {:induction false} ExecuteMore(r: Columns, sets: seq<Assignment>, more: seq<Assignment>)
    ensures Execute(r, sets + more) == Execute(Execute(r, sets), more)
    decreases |sets|
  {
    if sets == [] {
      assert [] + more == more;
    } else {
      assert (sets + more)[1..] == sets[1..] + more;
      ExecuteMore(Assign(r, sets[0]), sets[1..], more);
    }
  }

  lemma ExecuteOne(r: Columns, a: Assignment)
    ensures Execute(r, [a]) == Assign(r, a)
  {
    assert [a][1..] == [];
  }

  // ---------------------------------------------------------------- the statement

  /** `WHERE id = ? AND state = ?`, on the row of that id. */
  predicate Guard(r: Columns, from: State) { Holds(Eq(r.state, Text(StateText(from)))) }

  /** A column the patch may put a value into. */
  function Set(name: ColumnName, v: Option<Value>): seq<Assignment> {
    if v.Some? then [Assignment(name, v.value)] else []
  }

  function IntPut(c: Column<nat>): Option<Value> { if c.Put? then Some(Int(c.v)) else None }
  function TsPut(c: Column<Option<Ts>>): Option<Value> { if c.Put? then Some(OfInt(c.v)) else None }
  function TextPut(c: Column<Option<string>>): Option<Value> { if c.Put? then Some(OfText(c.v)) else None }
  function ReasonPut(c: Column<Option<SkipReason>>): Option<Value> { if c.Put? then Some(OfReason(c.v)) else None }
  function BoolPut(c: Column<bool>): Option<Value> { if c.Put? then Some(Bool(c.v)) else None }
  function HashPut(c: Column<Option<Hash>>): Option<Value> { if c.Put? then Some(OfHash(c.v)) else None }
  function GroupPut(c: Column<Option<GroupId>>): Option<Value> { if c.Put? then Some(OfGroup(c.v)) else None }
  function StatePut(c: Column<Option<State>>): Option<Value> { if c.Put? then Some(OfState(c.v)) else None }

  /** Every change of state clears the waiting mark, unless the patch sets it. */
  function StateSets(c: Cas, now: Ts): seq<Assignment> {
    [Assignment(StateColumn, Text(StateText(c.to))), Assignment(UpdatedAt, Int(now))]
    + match c.patch.heavySince
      case Put(v) => [Assignment(HeavyWaitSince, OfInt(v))]
      case Keep => if c.from != c.to then [Assignment(HeavyWaitSince, Null)] else []
  }

  function QueueSets(p: Patch): seq<Assignment> {
    Set(ReadyAt, TsPut(p.readyAt)) + (Set(Attempts, IntPut(p.attempts))
    + (Set(LastError, TextPut(p.lastError)) + Set(SkipReasonColumn, ReasonPut(p.skipReason))))
  }

  function SizeSets(i: Identity): seq<Assignment> {
    [Assignment(SizeColumn, Int(ToI64(i.size))), Assignment(MtimeNs, Int(i.mtime)), Assignment(CtimeNs, Int(i.ctime))]
  }

  function OwnerSets(i: Identity): seq<Assignment> {
    [Assignment(Nlink, Int(i.nlink)), Assignment(OwnerUid, Int(i.uid)), Assignment(ModeColumn, Int(i.mode))]
  }

  function IdentitySets(p: Patch): seq<Assignment> {
    match p.identity case Keep => [] case Put(i) => SizeSets(i) + OwnerSets(i)
  }

  function EnqSets(p: Patch): seq<Assignment> {
    match p.enq
    case Keep => []
    case Put(None) => [Assignment(EnqSize, Null), Assignment(EnqMtimeNs, Null), Assignment(EnqCtimeNs, Null)]
    case Put(Some(f)) =>
      [Assignment(EnqSize, Int(ToI64(f.size))), Assignment(EnqMtimeNs, Int(f.mtime)),
       Assignment(EnqCtimeNs, Int(f.ctime))]
  }

  function HashSets(p: Patch): seq<Assignment> {
    Set(MagicOk, BoolPut(p.magicOk)) + Set(SparseHash, HashPut(p.sparse))
  }

  function VersionSets(p: Patch): seq<Assignment> {
    Set(HashVersionColumn, IntPut(p.hashVersion)) + Set(FullHash, HashPut(p.full))
  }

  function ContentSets(p: Patch): seq<Assignment> { HashSets(p) + VersionSets(p) }

  function PlaceSets(p: Patch): seq<Assignment> {
    Set(GroupIdColumn, GroupPut(p.group)) + Set(PrevState, StatePut(p.prev))
  }

  /** The assignments in the order in which they are pushed. */
  function Sets(c: Cas, now: Ts): seq<Assignment> {
    StateSets(c, now) + (QueueSets(c.patch) + (IdentitySets(c.patch) + (EnqSets(c.patch)
    + (ContentSets(c.patch) + PlaceSets(c.patch)))))
  }

  // ---------------------------------------------------------------- what the groups of assignments do

  lemma SetIs(r: Columns, name: ColumnName, v: Option<Value>)
    ensures Execute(r, Set(name, v)) == if v.Some? then Assign(r, Assignment(name, v.value)) else r
  {
    if v.Some? { ExecuteOne(r, Assignment(name, v.value)); }
  }

  lemma ExecuteThree(r: Columns, a: Assignment, b: Assignment, d: Assignment)
    ensures Execute(r, [a, b, d]) == Assign(Assign(Assign(r, a), b), d)
    ensures Execute(r, [a, b]) == Assign(Assign(r, a), b)
  {
    assert [a, b] == [a] + [b] && [a, b, d] == [a, b] + [d];
    ExecuteOne(r, a);
    ExecuteMore(r, [a], [b]);
    ExecuteOne(Assign(r, a), b);
    ExecuteMore(r, [a, b], [d]);
    ExecuteOne(Assign(Assign(r, a), b), d);
  }

  lemma StateSetsDo(r: Columns, c: Cas, now: Ts)
    ensures Execute(r, StateSets(c, now)) ==
            r.(state := Text(StateText(c.to)), updated := Int(now),
               heavySince := match c.patch.heavySince
                             case Put(v) => OfInt(v)
                             case Keep => if c.from != c.to then Null else r.heavySince)
  {
    var a, b := Assignment(StateColumn, Text(StateText(c.to))), Assignment(UpdatedAt, Int(now));
    ExecuteThree(r, a, b, b);
    var mid := Execute(r, [a, b]);
    match c.patch.heavySince
    case Put(v) =>
      ExecuteMore(r, [a, b], [Assignment(HeavyWaitSince, OfInt(v))]);
      ExecuteOne(mid, Assignment(HeavyWaitSince, OfInt(v)));
    case Keep =>
      if c.from != c.to {
        ExecuteMore(r, [a, b], [Assignment(HeavyWaitSince, Null)]);
        ExecuteOne(mid, Assignment(HeavyWaitSince, Null));
      } else {
        assert [a, b] + [] == [a, b];
      }
  }

  lemma QueueSetsDo(r: Columns, p: Patch)
    ensures Execute(r, QueueSets(p)) ==
            r.(readyAt := if p.readyAt.Put? then OfInt(p.readyAt.v) else r.readyAt,
               attempts := if p.attempts.Put? then Int(p.attempts.v) else r.attempts,
               lastError := if p.lastError.Put? then OfText(p.lastError.v) else r.lastError,
               skipReason := if p.skipReason.Put? then OfReason(p.skipReason.v) else r.skipReason)
  {
    var a, b := Set(ReadyAt, TsPut(p.readyAt)), Set(Attempts, IntPut(p.attempts));
    var d, e := Set(LastError, TextPut(p.lastError)), Set(SkipReasonColumn, ReasonPut(p.skipReason));
    SetIs(r, ReadyAt, TsPut(p.readyAt));
    ExecuteMore(r, a, b + (d + e));
    var r1 := Execute(r, a);
    SetIs(r1, Attempts, IntPut(p.attempts));
    ExecuteMore(r1, b, d + e);
    var r2 := Execute(r1, b);
    SetIs(r2, LastError, TextPut(p.lastError));
    ExecuteMore(r2, d, e);
    SetIs(Execute(r2, d), SkipReasonColumn, ReasonPut(p.skipReason));
  }

  lemma SizeSetsDo(r: Columns, i: Identity)
    ensures Execute(r, SizeSets(i)) == r.(size := Int(ToI64(i.size)), mtime := Int(i.mtime), ctime := Int(i.ctime))
  {
    ExecuteThree(r, Assignment(SizeColumn, Int(ToI64(i.size))), Assignment(MtimeNs, Int(i.mtime)),
                 Assignment(CtimeNs, Int(i.ctime)));
  }

  lemma OwnerSetsDo(r: Columns, i: Identity)
    ensures Execute(r, OwnerSets(i)) == r.(nlink := Int(i.nlink), uid := Int(i.uid), mode := Int(i.mode))
  {
    ExecuteThree(r, Assignment(Nlink, Int(i.nlink)), Assignment(OwnerUid, Int(i.uid)),
                 Assignment(ModeColumn, Int(i.mode)));
  }

  lemma IdentitySetsDo(r: Columns, p: Patch)
    ensures Execute(r, IdentitySets(p)) ==
            match p.identity
            case Keep => r
            case Put(i) => r.(size := Int(ToI64(i.size)), mtime := Int(i.mtime), ctime := Int(i.ctime),
                              nlink := Int(i.nlink), uid := Int(i.uid), mode := Int(i.mode))
  {
    if p.identity.Put? {
      var i := p.identity.v;
      SizeSetsDo(r, i);
      ExecuteMore(r, SizeSets(i), OwnerSets(i));
      OwnerSetsDo(Execute(r, SizeSets(i)), i);
    }
  }

  lemma EnqSetsDo(r: Columns, p: Patch)
    ensures Execute(r, EnqSets(p)) ==
            match p.enq
            case Keep => r
            case Put(None) => r.(enqSize := Null, enqMtime := Null, enqCtime := Null)
            case Put(Some(f)) => r.(enqSize := Int(ToI64(f.size)), enqMtime := Int(f.mtime), enqCtime := Int(f.ctime))
  {
    match p.enq
    case Keep =>
    case Put(None) =>
      ExecuteThree(r, Assignment(EnqSize, Null), Assignment(EnqMtimeNs, Null), Assignment(EnqCtimeNs, Null));
    case Put(Some(f)) =>
      ExecuteThree(r, Assignment(EnqSize, Int(ToI64(f.size))), Assignment(EnqMtimeNs, Int(f.mtime)),
                   Assignment(EnqCtimeNs, Int(f.ctime)));
  }

  lemma HashSetsDo(r: Columns, p: Patch)
    ensures Execute(r, HashSets(p)) ==
            r.(magicOk := if p.magicOk.Put? then Bool(p.magicOk.v) else r.magicOk,
               sparse := if p.sparse.Put? then OfHash(p.sparse.v) else r.sparse)
  {
    var a, b := Set(MagicOk, BoolPut(p.magicOk)), Set(SparseHash, HashPut(p.sparse));
    SetIs(r, MagicOk, BoolPut(p.magicOk));
    ExecuteMore(r, a, b);
    SetIs(Execute(r, a), SparseHash, HashPut(p.sparse));
  }

  lemma VersionSetsDo(r: Columns, p: Patch)
    ensures Execute(r, VersionSets(p)) ==
            r.(hashVersion := if p.hashVersion.Put? then Int(p.hashVersion.v) else r.hashVersion,
               full := if p.full.Put? then OfHash(p.full.v) else r.full)
  {
    var a, b := Set(HashVersionColumn, IntPut(p.hashVersion)), Set(FullHash, HashPut(p.full));
    SetIs(r, HashVersionColumn, IntPut(p.hashVersion));
    ExecuteMore(r, a, b);
    SetIs(Execute(r, a), FullHash, HashPut(p.full));
  }

  lemma ContentSetsDo(r: Columns, p: Patch)
    ensures Execute(r, ContentSets(p)) ==
            r.(magicOk := if p.magicOk.Put? then Bool(p.magicOk.v) else r.magicOk,
               sparse := if p.sparse.Put? then OfHash(p.sparse.v) else r.sparse,
               hashVersion := if p.hashVersion.Put? then Int(p.hashVersion.v) else r.hashVersion,
               full := if p.full.Put? then OfHash(p.full.v) else r.full)
  {
    HashSetsDo(r, p);
    ExecuteMore(r, HashSets(p), VersionSets(p));
    VersionSetsDo(Execute(r, HashSets(p)), p);
  }

  lemma PlaceSetsDo(r: Columns, p: Patch)
    ensures Execute(r, PlaceSets(p)) ==
            r.(group := if p.group.Put? then OfGroup(p.group.v) else r.group,
               prev := if p.prev.Put? then OfState(p.prev.v) else r.prev)
  {
    var a, b := Set(GroupIdColumn, GroupPut(p.group)), Set(PrevState, StatePut(p.prev));
    SetIs(r, GroupIdColumn, GroupPut(p.group));
    ExecuteMore(r, a, b);
    SetIs(Execute(r, a), PrevState, StatePut(p.prev));
  }

  // ---------------------------------------------------------------- the statement is the compare-and-set

  lemma SetsInTurn(r: Columns, c: Cas, now: Ts) returns (a: Columns, b: Columns, d: Columns, e: Columns, f: Columns)
    ensures a == Execute(r, StateSets(c, now)) && b == Execute(a, QueueSets(c.patch))
    ensures d == Execute(b, IdentitySets(c.patch)) && e == Execute(d, EnqSets(c.patch))
    ensures f == Execute(e, ContentSets(c.patch))
    ensures Execute(r, Sets(c, now)) == Execute(f, PlaceSets(c.patch))
  {
    var p := c.patch;
    var last := ContentSets(p) + PlaceSets(p);
    a := Execute(r, StateSets(c, now));
    b := Execute(a, QueueSets(p));
    d := Execute(b, IdentitySets(p));
    e := Execute(d, EnqSets(p));
    f := Execute(e, ContentSets(p));
    ExecuteMore(r, StateSets(c, now), QueueSets(p) + (IdentitySets(p) + (EnqSets(p) + last)));
    ExecuteMore(a, QueueSets(p), IdentitySets(p) + (EnqSets(p) + last));
    ExecuteMore(b, IdentitySets(p), EnqSets(p) + last);
    ExecuteMore(d, EnqSets(p), last);
    ExecuteMore(e, ContentSets(p), PlaceSets(p));
  }

  /** The row after the first groups of assignments: its state, then its queue columns. */
  ghost function InQueue(r: Row, c: Cas, now: Ts): Row {
    var p := c.patch;
    r.(state := c.to, updated := now,
       heavySince := match p.heavySince
                     case Put(v) => v
                     case Keep => if c.from != c.to then None else r.heavySince,
       readyAt := Write(p.readyAt, r.readyAt), attempts := Write(p.attempts, r.attempts),
       lastError := Write(p.lastError, r.lastError), skipReason := Write(p.skipReason, r.skipReason))
  }

  /** The columns taken over from a file, then those of the queue entry. */
  ghost function AsSeen(r: Row, p: Patch): Row {
    var s := match p.identity
             case Keep => r
             case Put(i) =>
               r.(size := i.size, mtime := i.mtime, ctime := i.ctime, nlink := i.nlink, uid := i.uid, mode := i.mode);
    s.(enq := Write(p.enq, s.enq))
  }

  /** What is known of the contents, then the group and the state before. */
  ghost function AsFound(r: Row, p: Patch): Row {
    r.(magicOk := match p.magicOk case Put(v) => Some(v) case Keep => r.magicOk,
       sparse := Write(p.sparse, r.sparse),
       hashVersion := match p.hashVersion case Put(v) => Some(v) case Keep => r.hashVersion,
       full := Write(p.full, r.full), group := Write(p.group, r.group), prev := Write(p.prev, r.prev))
  }

  lemma InStages(r: Row, c: Cas, now: Ts)
    ensures PatchRow(r, c, now) == AsFound(AsSeen(InQueue(r, c, now), c.patch), c.patch)
  {
  }

  lemma QueueStage(r: Row, c: Cas, now: Ts, a: Columns)
    requires a == Execute(Encode(r), StateSets(c, now))
    ensures Execute(a, QueueSets(c.patch)) == Encode(InQueue(r, c, now))
  {
    StateSetsDo(Encode(r), c, now);
    QueueSetsDo(a, c.patch);
  }

  lemma SeenStage(r: Row, p: Patch, d: Columns)
    requires d == Execute(Encode(r), IdentitySets(p))
    ensures Execute(d, EnqSets(p)) == Encode(AsSeen(r, p))
  {
    IdentitySetsDo(Encode(r), p);
    EnqSetsDo(d, p);
  }

  lemma FoundStage(r: Row, p: Patch, f: Columns)
    requires f == Execute(Encode(r), ContentSets(p))
    ensures Execute(f, PlaceSets(p)) == Encode(AsFound(r, p))
  {
    ContentSetsDo(Encode(r), p);
    PlaceSetsDo(f, p);
  }

  /** Each column of the row after the update is the one that the patched row has. */
  lemma AssignmentsRefinePatch(r: Row, c: Cas, now: Ts)
    ensures Execute(Encode(r), Sets(c, now)) == Encode(PatchRow(r, c, now))
  {
    var a, b, d, e, f := SetsInTurn(Encode(r), c, now);
    QueueStage(r, c, now, a);
    SeenStage(InQueue(r, c, now), c.patch, d);
    FoundStage(AsSeen(InQueue(r, c, now), c.patch), c.patch, f);
    InStages(r, c, now);
  }

  /** `UPDATE files SET ... WHERE id = ? AND state = ?`, on the table of columns. */
  function Update(table: map<RowId, Columns>, c: Cas, now: Ts): map<RowId, Columns> {
    if c.id in table && Guard(table[c.id], c.from) then table[c.id := Execute(table[c.id], Sets(c, now))] else table
  }

  function EncodeRows(rows: map<RowId, Row>): map<RowId, Columns> { map i | i in rows :: Encode(rows[i]) }

  lemma GuardIsState(r: Row, from: State)
    ensures Guard(Encode(r), from) <==> r.state == from
  {
    StateTextsDiffer(r.state, from);
  }

  /** The statement changes a row if and only if the compare-and-set holds, and to the same columns. */
  lemma UpdateRefinesCas(rows: map<RowId, Row>, c: Cas, now: Ts)
    ensures Update(EncodeRows(rows), c, now) == EncodeRows(CasUpdate(rows, c, now))
    ensures (c.id in rows && Guard(Encode(rows[c.id]), c.from)) <==> CasHolds(rows, c)
  {
    if c.id in rows {
      GuardIsState(rows[c.id], c.from);
      AssignmentsRefinePatch(rows[c.id], c, now);
    }
  }

  // ---------------------------------------------------------------- the group operation

  /** Which rows change their group, and to what. */
  ghost function GroupWritten(op: GroupOp, row: RowId, i: RowId, r: Row): Option<GroupId>
    requires !op.Create?
  {
    match op
    case Join(g) => if i == row then Some(g) else r.group
    case SetCanonical(g, file) => if i == file then Some(g) else r.group
    case Leave(_) => if i == row then None else r.group
    case MarkVerified(_, _) => r.group
  }

  /** Which groups change, and how: a pointer set or cleared, a date and a hash that are written once. */
  ghost predicate GroupWrites(op: GroupOp, row: RowId, x: GroupId, g: Group, g': Group, now: Ts)
    requires !op.Create?
  {
    match op
    case SetCanonical(y, file) => g' == if x == y then g.(canonical := Some(file)) else g
    case Leave(y) => g' == if x == y && g.canonical == Some(row) then g.(canonical := None) else g
    case MarkVerified(y, full) =>
      && (x != y ==> g' == g)
      && (x == y ==> g' == g.(verifiedAt := g'.verifiedAt, full := g'.full)
                     && g'.verifiedAt == (if g.verifiedAt.None? then Some(now) else g.verifiedAt)
                     && g'.full == (if g.full.None? then full else g.full))
    case Join(_) => g' == g
  }

  /** Apart from the insertion of a group, an operation on a group writes two columns of rows and groups at most. */
  lemma GroupOpWrites(db: Db, row: RowId, op: GroupOp, now: Ts)
    requires !op.Create? && GroupOpAllowed(db, row, op)
    ensures var a := ApplyGroupOp(db, row, op, now);
      && a.rows.Keys == db.rows.Keys && a.groups.Keys == db.groups.Keys
      && (forall i :: i in db.rows ==> a.rows[i] == db.rows[i].(group := GroupWritten(op, row, i, db.rows[i])))
      && (forall x :: x in db.groups ==> GroupWrites(op, row, x, db.groups[x], a.groups[x], now))
  {
  }
}
