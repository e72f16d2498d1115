/**
 * The upsert statement as SQLite evaluates it: columns of text and 64-bit integers that
 * may be NULL, three-valued logic, and every CASE of the statement.
 */
module SqlUpsert {
  import opened Wrappers
  import opened Model
  import opened Selection
  import opened StoreSpec
  import opened OpsSpec
  import opened Rules

  // ---------------------------------------------------------------- values and three-valued logic

  datatype Value = Null | Int(i: int) | Text(s: string) | Blob(b: nat)

  const TRUE := Int(1)
  const FALSE := Int(0)

  function Bool(b: bool): Value { if b then TRUE else FALSE }

  /** A WHEN or a WHERE takes NULL for false. */
  predicate Holds(v: Value) { v.Int? && v.i != 0 }

  function Eq(a: Value, b: Value): Value {
    if a.Null? || b.Null? then Null else Bool(a == b)
  }

  function AtMost(a: Value, b: Value): Value {
    if a.Int? && b.Int? then Bool(a.i <= b.i) else Null
  }

  function And(a: Value, b: Value): Value {
    if a == FALSE || b == FALSE then FALSE else if a.Null? || b.Null? then Null else TRUE
  }

  function Or(a: Value, b: Value): Value {
    if Holds(a) || Holds(b) then TRUE else if a.Null? || b.Null? then Null else FALSE
  }

  function Not(a: Value): Value {
    if a.Null? then Null else Bool(!Holds(a))
  }

  /** `IS` on two tuples of columns: never NULL. */
  function AllIs(pairs: seq<(Value, Value)>): Value {
    if pairs == [] then TRUE else if pairs[0].0 != pairs[0].1 then FALSE else AllIs(pairs[1..])
  }

  function In(v: Value, texts: seq<string>): Value {
    if texts == [] then FALSE else Or(Eq(v, Text(texts[0])), In(v, texts[1..]))
  }

  function SqlMin(a: Value, b: Value): Value {
    if a.Int? && b.Int? then (if a.i <= b.i then a else b) else Null
  }

  // ---------------------------------------------------------------- encoding

  const TWO_63 := 0x8000_0000_0000_0000
  const TWO_64 := 0x1_0000_0000_0000_0000

  /** `u64_to_i64`: the same 64 bits. */
  function ToI64(n: nat): int { if n < TWO_63 then n else n - TWO_64 }

  function StateText(s: State): string {
    match s
    case Settling => "settling"
    case Sized => "sized"
    case Hashed => "hashed"
    case Verified => "verified"
    case Deduped => "deduped"
    case Distinct => "distinct"
    case Canonical => "canonical"
    case Skipped => "skipped"
    case Failed => "failed"
    case Missing => "missing"
    case Gone => "gone"
  }

  function ReasonText(s: SkipReason): string {
    match s
    case NotVideo => "not_video"
    case TooSmall => "too_small"
    case BadMagic => "bad_magic"
    case Hardlink => "hardlink"
    case SpecialModeBits => "special_mode"
    case Excluded => "excluded"
    case Unsupported => "unsupported"
    case UserUndo => "user_undo"
    case Unstable => "unstable"
    case ReportNoVerify => "report_no_verify"
    case TooLarge => "too_large"
    case SuspectPartial => "suspect_partial"
  }

  function OfInt(o: Option<int>): Value { if o.Some? then Int(o.value) else Null }
  function OfBool(o: Option<bool>): Value { if o.Some? then Bool(o.value) else Null }
  function OfHash(o: Option<Hash>): Value { if o.Some? then Blob(o.value) else Null }
  function OfText(o: Option<string>): Value { if o.Some? then Text(o.value) else Null }
  function OfState(o: Option<State>): Value { if o.Some? then Text(StateText(o.value)) else Null }
  function OfReason(o: Option<SkipReason>): Value { if o.Some? then Text(ReasonText(o.value)) else Null }
  function OfGroup(o: Option<GroupId>): Value { if o.Some? then Int(o.value.n) else Null }

  datatype Columns = Columns(
    sub: Value, ino: Value, domain: Value, root: Value, rel: Value, uid: Value, mode: Value,
    size: Value, mtime: Value, ctime: Value, nlink: Value,
    state: Value, prev: Value, readyAt: Value, priority: Value, heavySince: Value, attempts: Value,
    lastError: Value, skipReason: Value,
    enqSize: Value, enqMtime: Value, enqCtime: Value, magicOk: Value,
    sparse: Value, hashVersion: Value, full: Value, group: Value,
    firstSeen: Value, lastSeen: Value, updated: Value)

  function Encode(r: Row): Columns {
    Columns(
      Blob(r.key.sub), Int(ToI64(r.key.ino)), Blob(r.domain), Int(r.loc.root), Text(r.loc.rel), Int(r.uid), Int(r.mode),
      Int(ToI64(r.size)), Int(r.mtime), Int(r.ctime), Int(r.nlink),
      Text(StateText(r.state)), OfState(r.prev), OfInt(r.readyAt), Int(r.priority), OfInt(r.heavySince),
      Int(r.attempts),
      OfText(r.lastError), OfReason(r.skipReason),
      if r.enq.Some? then Int(ToI64(r.enq.value.size)) else Null,
      if r.enq.Some? then Int(r.enq.value.mtime) else Null,
      if r.enq.Some? then Int(r.enq.value.ctime) else Null,
      OfBool(r.magicOk), OfHash(r.sparse), OfInt(r.hashVersion), OfHash(r.full), OfGroup(r.group),
      Int(r.firstSeen), Int(r.lastSeen), Int(r.updated))
  }

  /** Sizes and inode numbers are u64 in the source. */
  ghost predicate WordRow(r: Row) {
    r.size < TWO_64 && r.key.ino < TWO_64 && (r.enq.Some? ==> r.enq.value.size < TWO_64)
  }

  ghost predicate WordIdentity(i: Identity) { i.size < TWO_64 && i.key.ino < TWO_64 }

  // ---------------------------------------------------------------- the statement

  /** `VALUES (...)`, which is also what `excluded` names. */
  function Values(seen: Identity, loc: FileLoc, readyAt: Ts, priority: nat, now: Ts): Columns {
    Columns(
      Blob(seen.key.sub), Int(ToI64(seen.key.ino)), Blob(seen.domain), Int(loc.root), Text(loc.rel), Int(seen.uid),
      Int(seen.mode),
      Int(ToI64(seen.size)), Int(seen.mtime), Int(seen.ctime), Int(seen.nlink),
      Text("settling"), Null, Int(readyAt), Int(priority), Null, Int(0), Null, Null,
      Int(ToI64(seen.size)), Int(seen.mtime), Int(seen.ctime), Null, Null, Null, Null, Null,
      Int(now), Int(now), Int(now))
  }

  const QUEUED_TEXTS := ["settling", "sized", "hashed"]
  const RESTORABLE_TEXTS :=
    ["settling", "sized", "hashed", "verified", "deduped", "distinct", "canonical", "skipped", "failed"]

  /** `:fp_same`, for a root whose files have a POSIX ctime and for one whose files do not. */
  function FpSame(f: Columns, x: Columns, kind: RootKind): Value {
    if kind.Local? then AllIs([(f.size, x.size), (f.mtime, x.mtime), (f.ctime, x.ctime)])
    else AllIs([(f.size, x.size), (f.mtime, x.mtime)])
  }

  /** `:restored`. */
  function Restored(f: Columns): Value {
    if Holds(In(f.prev, RESTORABLE_TEXTS)) then f.prev else Text("settling")
  }

  function CaseState(f: Columns, same: Value): Value {
    if Holds(And(Eq(f.state, Text("missing")), same)) then Restored(f)
    else if Holds(same) then f.state
    else if Holds(Eq(f.skipReason, Text("user_undo"))) then f.state
    else Text("settling")
  }

  function CasePrev(f: Columns, same: Value): Value {
    if Holds(Or(same, In(f.state, QUEUED_TEXTS))) then f.prev else f.state
  }

  function CaseReadyAt(f: Columns, x: Columns, same: Value): Value {
    if Holds(And(Eq(f.state, Text("missing")), same)) then
      if Holds(In(Restored(f), QUEUED_TEXTS)) then x.readyAt else Null
    else if Holds(And(same, Not(In(f.state, QUEUED_TEXTS)))) then f.readyAt
    else x.readyAt
  }

  function CaseSkipReason(f: Columns, same: Value): Value {
    if Holds(Or(same, Eq(f.skipReason, Text("user_undo")))) then f.skipReason else Null
  }

  function KeepIf(same: Value, v: Value, otherwise: Value): Value {
    if Holds(same) then v else otherwise
  }

  /** `DO UPDATE SET`: `f` is the stored row, `x` is `excluded`. */
  function DoUpdate(f: Columns, x: Columns, kind: RootKind): Columns {
    var same := FpSame(f, x, kind);
    f.(rel := x.rel, root := x.root, uid := x.uid, mode := x.mode,
       enqSize := x.enqSize, enqMtime := x.enqMtime, enqCtime := x.enqCtime,
       lastSeen := x.lastSeen, updated := x.updated,
       state := CaseState(f, same),
       prev := CasePrev(f, same),
       readyAt := CaseReadyAt(f, x, same),
       priority := SqlMin(f.priority, x.priority),
       heavySince := KeepIf(same, f.heavySince, Null),
       attempts := KeepIf(same, f.attempts, Int(0)),
       sparse := KeepIf(same, f.sparse, Null),
       full := KeepIf(same, f.full, Null),
       magicOk := KeepIf(same, f.magicOk, Null),
       group := KeepIf(same, f.group, Null),
       skipReason := CaseSkipReason(f, same))
  }

  // ---------------------------------------------------------------- the statement refines the rule

  lemma {:induction false} InMeans(v: Value, texts: seq<string>)
    ensures Holds(In(v, texts)) <==> v.Text? && v.s in texts
    ensures In(v, texts).Null? <==> v.Null? && texts != []
    ensures In(v, texts).Null? || In(v, texts) == TRUE || In(v, texts) == FALSE
  {
    if texts != [] { InMeans(v, texts[1..]); }
  }

  /** Parsing a state name gives the state back. */
  function StateOf(t: string): Option<State> {
    if t == "settling" then Some(Settling)
    else if t == "sized" then Some(Sized)
    else if t == "hashed" then Some(Hashed)
    else if t == "verified" then Some(Verified)
    else if t == "deduped" then Some(Deduped)
    else if t == "distinct" then Some(Distinct)
    else if t == "canonical" then Some(Canonical)
    else if t == "skipped" then Some(Skipped)
    else if t == "failed" then Some(Failed)
    else if t == "missing" then Some(Missing)
    else if t == "gone" then Some(Gone)
    else None
  }

  lemma StateTextRoundTrip(s: State)
    ensures StateOf(StateText(s)) == Some(s)
  {
    match s
    case Settling =>
    case Sized => assert StateText(s)[1] != "settling"[1];
    case Hashed => assert StateText(s)[0] == 'h';
    case Verified => assert StateText(s)[0] == 'v';
    case Deduped => assert StateText(s)[1] == 'e';
    case Distinct => assert StateText(s)[1] == 'i';
    case Canonical => assert StateText(s)[0] == 'c';
    case Skipped => assert StateText(s)[1] == 'k';
    case Failed => assert StateText(s)[0] == 'f';
    case Missing => assert StateText(s)[0] == 'm';
    case Gone => assert StateText(s)[0] == 'g';
  }

  lemma StateTextsDiffer(s: State, t: State)
    ensures StateText(s) == StateText(t) <==> s == t
  {
    StateTextRoundTrip(s);
    StateTextRoundTrip(t);
  }

  lemma UndoText(s: SkipReason)
    ensures ReasonText(s) == "user_undo" <==> s.UserUndo?
  {
    assert "user_undo"[0] == 'u' && "user_undo"[1] == 's';
    match s
    case Unsupported => assert ReasonText(s)[1] == 'n';
    case Unstable => assert ReasonText(s)[1] == 'n';
    case UserUndo =>
    case _ => assert ReasonText(s)[0] != 'u';
  }

  lemma QueuedText(s: State)
    ensures Holds(In(Text(StateText(s)), QUEUED_TEXTS)) <==> s.Queued()
    ensures In(Text(StateText(s)), QUEUED_TEXTS) == Bool(s.Queued())
  {
    InMeans(Text(StateText(s)), QUEUED_TEXTS);
    StateTextsDiffer(s, Settling);
    StateTextsDiffer(s, Sized);
    StateTextsDiffer(s, Hashed);
  }

  const RESTORABLE: seq<State> := [Settling, Sized, Hashed, Verified, Deduped, Distinct, Canonical, Skipped, Failed]

  lemma RestorableTexts(i: nat)
    requires i < |RESTORABLE|
    ensures RESTORABLE_TEXTS[i] == StateText(RESTORABLE[i])
  {
  }

  /** The texts the statement restores are those of all states but `missing` and `gone`. */
  lemma RestorableText(s: State)
    ensures Holds(In(Text(StateText(s)), RESTORABLE_TEXTS)) <==> !s.OffDisk()
  {
    InMeans(Text(StateText(s)), RESTORABLE_TEXTS);
    if !s.OffDisk() {
      var i := IndexOf(s);
      RestorableTexts(i);
    } else {
      forall i | 0 <= i < |RESTORABLE_TEXTS| ensures RESTORABLE_TEXTS[i] != StateText(s) {
        RestorableTexts(i);
        StateTextsDiffer(RESTORABLE[i], s);
      }
    }
  }

  lemma IndexOf(s: State) returns (i: nat)
    requires !s.OffDisk()
    ensures i < |RESTORABLE| && RESTORABLE[i] == s
  {
    match s
    case Settling => i := 0;
    case Sized => i := 1;
    case Hashed => i := 2;
    case Verified => i := 3;
    case Deduped => i := 4;
    case Distinct => i := 5;
    case Canonical => i := 6;
    case Skipped => i := 7;
    case Failed => i := 8;
  }

  lemma RestoredIsTarget(r: Row)
    ensures Restored(Encode(r)) == Text(StateText(RestoreTarget(r.prev)))
  {
    if r.prev.Some? { RestorableText(r.prev.value); }
    else { InMeans(Null, RESTORABLE_TEXTS); }
  }

  lemma WordsDiffer(m: nat, n: nat)
    requires m < TWO_64 && n < TWO_64
    ensures ToI64(m) == ToI64(n) <==> m == n
  {
  }

  lemma AllIsPair(a: (Value, Value), b: (Value, Value))
    ensures AllIs([a, b]) == Bool(a.0 == a.1 && b.0 == b.1)
  {
    assert [a, b][1..] == [b] && [b][1..] == [];
    assert AllIs([b]) == Bool(b.0 == b.1);
  }

  lemma AllIsTriple(a: (Value, Value), b: (Value, Value), c: (Value, Value))
    ensures AllIs([a, b, c]) == Bool(a.0 == a.1 && b.0 == b.1 && c.0 == c.1)
  {
    assert [a, b, c][1..] == [b, c];
    AllIsPair(b, c);
  }

  /** Comparing the stored columns with `IS` is comparing fingerprints. */
  lemma FpSameMatches(r: Row, x: Columns, seen: Identity, kind: RootKind)
    requires WordRow(r) && WordIdentity(seen)
    requires x.size == Int(ToI64(seen.size)) && x.mtime == Int(seen.mtime) && x.ctime == Int(seen.ctime)
    ensures FpSame(Encode(r), x, kind) == Bool(r.Print().Matches(seen.Print(), kind))
  {
    var f := Encode(r);
    WordsDiffer(r.size, seen.size);
    AllIsPair((f.size, x.size), (f.mtime, x.mtime));
    AllIsTriple((f.size, x.size), (f.mtime, x.mtime), (f.ctime, x.ctime));
  }

  lemma CaseStateIs(r: Row, same: bool)
    ensures CaseState(Encode(r), Bool(same)) ==
      Text(StateText(if r.state.Missing? && same then RestoreTarget(r.prev)
                     else if same || r.skipReason == Some(UserUndo) then r.state else Settling))
  {
    StateTextsDiffer(r.state, Missing);
    if same {
      if r.state.Missing? { RestoredIsTarget(r); }
    } else if r.skipReason.Some? {
      UndoText(r.skipReason.value);
    }
  }

  lemma CasePrevIs(r: Row, same: bool)
    ensures CasePrev(Encode(r), Bool(same)) == OfState(if same || r.state.Queued() then r.prev else Some(r.state))
  {
    QueuedText(r.state);
  }

  lemma CaseReadyAtIs(r: Row, x: Columns, same: bool, readyAt: Ts)
    requires x.readyAt == Int(readyAt)
    ensures CaseReadyAt(Encode(r), x, Bool(same)) ==
      OfInt(if r.state.Missing? && same then (if RestoreTarget(r.prev).Queued() then Some(readyAt) else None)
            else if same && !r.state.Queued() then r.readyAt
            else Some(readyAt))
  {
    StateTextsDiffer(r.state, Missing);
    RestoredIsTarget(r);
    QueuedText(RestoreTarget(r.prev));
    QueuedText(r.state);
  }

  lemma CaseSkipReasonIs(r: Row, same: bool)
    ensures CaseSkipReason(Encode(r), Bool(same)) ==
      OfReason(if same || r.skipReason == Some(UserUndo) then r.skipReason else None)
  {
    if r.skipReason.Some? { UndoText(r.skipReason.value); }
  }

  /** For every stored row and every sighting of its file, the statement writes exactly the row of the rule. */
  lemma UpdateRefinesRule(r: Row, seen: Identity, loc: FileLoc, readyAt: Ts, priority: nat, now: Ts, kind: RootKind)
    requires WordRow(r) && WordIdentity(seen)
    ensures DoUpdate(Encode(r), Values(seen, loc, readyAt, priority, now), kind) ==
            Encode(ApplyUpsert(r, DecideUpsert(r, seen, kind, readyAt, priority), seen, loc, now))
  {
    var x := Values(seen, loc, readyAt, priority, now);
    var d := DecideUpsert(r, seen, kind, readyAt, priority);
    FpSameMatches(r, x, seen, kind);
    CaseStateIs(r, d.same);
    CasePrevIs(r, d.same);
    CaseReadyAtIs(r, x, d.same, readyAt);
    CaseSkipReasonIs(r, d.same);
  }

  /** The insert branch writes exactly the new row. */
  lemma InsertRefinesRule(seen: Identity, loc: FileLoc, readyAt: Ts, priority: nat, now: Ts)
    ensures Values(seen, loc, readyAt, priority, now)
            == Encode(NewRow(seen, loc, Settling, Some(readyAt), priority, now))
  {
  }

  // ---------------------------------------------------------------- the stored text means one row

  function ReasonOf(t: string): Option<SkipReason> {
    if t == "not_video" then Some(NotVideo)
    else if t == "too_small" then Some(TooSmall)
    else if t == "bad_magic" then Some(BadMagic)
    else if t == "hardlink" then Some(Hardlink)
    else if t == "special_mode" then Some(SpecialModeBits)
    else if t == "excluded" then Some(Excluded)
    else if t == "unsupported" then Some(Unsupported)
    else if t == "user_undo" then Some(UserUndo)
    else if t == "unstable" then Some(Unstable)
    else if t == "report_no_verify" then Some(ReportNoVerify)
    else if t == "too_large" then Some(TooLarge)
    else if t == "suspect_partial" then Some(SuspectPartial)
    else None
  }

  lemma ReasonTextRoundTrip(s: SkipReason)
    ensures ReasonOf(ReasonText(s)) == Some(s)
  {
    match s
    case NotVideo =>
    case TooSmall => assert ReasonText(s)[0] == 't';
    case BadMagic => assert ReasonText(s)[0] == 'b';
    case Hardlink => assert ReasonText(s)[0] == 'h';
    case SpecialModeBits => assert ReasonText(s)[1] == 'p';
    case Excluded => assert ReasonText(s)[0] == 'e';
    case Unsupported => assert ReasonText(s)[0] == 'u' && |ReasonText(s)| == 11;
    case UserUndo => assert ReasonText(s)[0] == 'u' && ReasonText(s)[1] == 's';
    case Unstable => assert ReasonText(s)[0] == 'u' && |ReasonText(s)| == 8;
    case ReportNoVerify => assert ReasonText(s)[0] == 'r';
    case TooLarge => assert ReasonText(s)[0] == 't' && ReasonText(s)[4] == 'l' && "too_small"[4] == 's';
    case SuspectPartial => assert ReasonText(s)[0] == 's' && ReasonText(s)[1] == 'u';
  }

  /** Two rows of the table are equal when their columns are. */
  lemma EncodeInjective(r: Row, s: Row)
    requires WordRow(r) && WordRow(s) && Encode(r) == Encode(s)
    ensures r == s
  {
    WordsDiffer(r.size, s.size);
    WordsDiffer(r.key.ino, s.key.ino);
    if r.enq.Some? && s.enq.Some? { WordsDiffer(r.enq.value.size, s.enq.value.size); }
    StateTextsDiffer(r.state, s.state);
    if r.prev.Some? && s.prev.Some? { StateTextsDiffer(r.prev.value, s.prev.value); }
    if r.skipReason.Some? && s.skipReason.Some? {
      ReasonTextRoundTrip(r.skipReason.value);
      ReasonTextRoundTrip(s.skipReason.value);
    }
  }

  // ---------------------------------------------------------------- the whole transaction

  /** The two tables as columns: `files`, and `canonical_file_id` of each group. */
  datatype Tables = Tables(files: map<RowId, Columns>, canonical: map<GroupId, Value>)

  function EncodeRows(rows: map<RowId, Row>): map<RowId, Columns> {
    map i | i in rows :: Encode(rows[i])
  }

  function EncodeGroups(groups: map<GroupId, Group>): map<GroupId, Value> {
    map g | g in groups :: OfGroup(groups[g].canonical)
  }

  function EncodeDb(db: Db): Tables {
    Tables(EncodeRows(db.rows), EncodeGroups(db.groups))
  }

  lemma EncodeOneRow(rows: map<RowId, Row>, i: RowId, r: Row)
    ensures EncodeRows(rows[i := r]) == EncodeRows(rows)[i := Encode(r)]
  {
  }

  /** The rows that `UNIQUE (sub_id, ino)` makes conflict with the inserted one. */
  function Conflicts(files: map<RowId, Columns>, x: Columns): set<RowId> {
    set i | i in files && Holds(And(Eq(files[i].sub, x.sub), Eq(files[i].ino, x.ino)))
  }

  /**
   * `UPDATE content_groups SET canonical_file_id = NULL WHERE id = :g AND canonical_file_id = :i AND group IS NULL`.
   */
  function ClearPointer(canonical: map<GroupId, Value>, wasGroup: Value, i: RowId, groupNow: Value)
    : map<GroupId, Value>
  {
    map g | g in canonical ::
      if Holds(And(And(Eq(Int(g.n), wasGroup), Eq(canonical[g], Int(i.n))), Bool(groupNow.Null?))) then Null
      else canonical[g]
  }

  function Transaction(t: Tables, x: Columns, kind: RootKind): Tables {
    var hit := Conflicts(t.files, x);
    if hit == {} then t.(files := t.files[NextId(t.files.Keys) := x])
    else
      var i := MinId(hit);
      var f := DoUpdate(t.files[i], x, kind);
      Tables(t.files[i := f],
             if t.files[i].group.Null? then t.canonical else ClearPointer(t.canonical, t.files[i].group, i, f.group))
  }

  ghost predicate WordDb(db: Db) {
    forall i :: i in db.rows ==> WordRow(db.rows[i])
  }

  lemma ConflictIsKey(r: Row, seen: Identity)
    requires WordRow(r) && WordIdentity(seen)
    ensures Holds(And(Eq(Encode(r).sub, Blob(seen.key.sub)), Eq(Encode(r).ino, Int(ToI64(seen.key.ino)))))
            <==> r.key == seen.key
  {
    WordsDiffer(r.key.ino, seen.key.ino);
  }

  /** The statement finds the row that the pure rule finds by key. */
  lemma ConflictsAreKey(db: Db, x: Columns, seen: Identity)
    requires WordDb(db) && WordIdentity(seen)
    requires x.sub == Blob(seen.key.sub) && x.ino == Int(ToI64(seen.key.ino))
    ensures Conflicts(EncodeDb(db).files, x) == set i | i in db.rows && db.rows[i].key == seen.key
  {
    forall i | i in db.rows
      ensures i in Conflicts(EncodeDb(db).files, x) <==> db.rows[i].key == seen.key
    {
      ConflictIsKey(db.rows[i], seen);
    }
  }

  lemma PointerRefines(groups: map<GroupId, Group>, was: Option<GroupId>, i: RowId, now: Option<GroupId>)
    requires was.Some?
    ensures ClearPointer(EncodeGroups(groups), OfGroup(was), i, OfGroup(now)) ==
            EncodeGroups(if now.None? then DropPointer(groups, was, i) else groups)
  {
    var after := if now.None? then DropPointer(groups, was, i) else groups;
    forall g | g in groups
      ensures OfGroup(after[g].canonical) == ClearPointer(EncodeGroups(groups), OfGroup(was), i, OfGroup(now))[g]
    {
      assert Id(g.n) == g && Id(i.n) == i && Id(was.value.n) == was.value;
      if groups[g].canonical.Some? { assert Id(groups[g].canonical.value.n) == groups[g].canonical.value; }
    }
  }

  lemma PointerStepRefines(groups: map<GroupId, Group>, was: Option<GroupId>, i: RowId, now: Option<GroupId>)
    ensures
      (if OfGroup(was).Null? then EncodeGroups(groups)
       else ClearPointer(EncodeGroups(groups), OfGroup(was), i, OfGroup(now)))
      == EncodeGroups(if now.None? then DropPointer(groups, was, i) else groups)
  {
    if was.Some? { PointerRefines(groups, was, i, now); }
  }

  /**
   * The upsert transaction, evaluated column by column under three-valued logic, does to the
   * stored tables exactly what the pure rule does, for every table, sighting and kind of root.
   */
  lemma TransactionRefinesUpsert(db: Db, seen: Identity, loc: FileLoc, readyAt: Ts, priority: nat, now: Ts,
                                 kind: RootKind)
    requires WordDb(db) && WordIdentity(seen)
    ensures Transaction(EncodeDb(db), Values(seen, loc, readyAt, priority, now), kind) ==
            EncodeDb(Upsert(db, seen, loc, readyAt, priority, now, kind))
  {
    var x := Values(seen, loc, readyAt, priority, now);
    ConflictsAreKey(db, x, seen);
    assert EncodeRows(db.rows).Keys == db.rows.Keys;
    match FindByKey(db.rows, seen.key)
    case None =>
      InsertRefinesRule(seen, loc, readyAt, priority, now);
      EncodeOneRow(db.rows, NextId(db.rows.Keys), NewRow(seen, loc, Settling, Some(readyAt), priority, now));
    case Some(i) =>
      UpdateRefinesRule(db.rows[i], seen, loc, readyAt, priority, now, kind);
      var r := Reseen(db.rows[i], seen, loc, readyAt, priority, now, kind);
      EncodeOneRow(db.rows, i, r);
      PointerStepRefines(db.groups, db.rows[i].group, i, r.group);
  }

  // ---------------------------------------------------------------- other conditions of the queue

  /** The WHERE of `next_ready`. */
  function NextReadyWhere(f: Columns, now: Ts, allowHeavy: bool, deadline: Ts): Value {
    And(And(And(In(f.state, QUEUED_TEXTS), Bool(!f.readyAt.Null?)), AtMost(f.readyAt, Int(now))),
        Or(Or(Bool(allowHeavy), In(f.state, ["settling", "sized"])),
           And(Bool(!f.heavySince.Null?), AtMost(f.heavySince, Int(deadline)))))
  }

  lemma NextReadyWhereIsDue(r: Row, now: Ts, allowHeavy: bool, maxWait: int)
    ensures Holds(NextReadyWhere(Encode(r), now, allowHeavy, Clamp(now - maxWait)))
            <==> IsDue(r, now, allowHeavy, maxWait)
  {
    QueuedText(r.state);
    InMeans(Text(StateText(r.state)), ["settling", "sized"]);
    StateTextsDiffer(r.state, Settling);
    StateTextsDiffer(r.state, Sized);
  }

  /** `state NOT IN ('missing', 'gone')`, the guard of every missing mark. */
  lemma NotMissingIsLive(r: Row)
    ensures Holds(Not(In(Encode(r).state, ["missing", "gone"]))) <==> r.Live()
  {
    InMeans(Text(StateText(r.state)), ["missing", "gone"]);
    StateTextsDiffer(r.state, Missing);
    StateTextsDiffer(r.state, Gone);
  }
}
