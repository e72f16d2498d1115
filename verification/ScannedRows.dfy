/** What the initial scan writes: the rows there were, and one new row for each file it found, as old as the file. */
module ScannedRows {
  import opened Wrappers
  import opened Model
  import opened Rules
  import opened OpsSpec
  import opened Tree
  import opened Walk
  import opened Resume
  import opened Progress
  import opened Skipping

  /** The file at `p`, if it passes the filter. */
  ghost predicate IsFile(w: World, p: Path, id: Identity) {
    && At(w.tree, p).Some? && At(w.tree, p).value.File? && At(w.tree, p).value.seen == Some(id)
    && w.wanted(p) && id.size >= w.minSize && !w.optedOut(p)
  }

  /** A file untouched for the settling time is sized and waits for a peer; a younger one settles until then. */
  ghost predicate DatedByAge(k: Settings, id: Identity, state: State, readyAt: Option<Ts>) {
    var written := TruncDiv(id.mtime, 1_000_000);
    if written <= k.now - k.settleDelay then state == Sized && readyAt.None?
    else state == Settling && readyAt == Some(written + k.settleDelay)
  }

  /** The row of a file that the scan found at `p`. */
  ghost predicate IsScanned(w: World, k: Settings, p: Path, id: Identity, r: Row) {
    && r.key == id.key && r.loc == FileLoc(w.root, if p == [] then "" else PathText.Join(p))
    && r.domain == id.domain && r.size == id.size && r.mtime == id.mtime && r.ctime == id.ctime
    && r.nlink == id.nlink && r.uid == id.uid && r.mode == id.mode
    && DatedByAge(k, id, r.state, r.readyAt) && r.priority == 2 && r.attempts == 0
    && r.enq == Some(Fingerprint(id.size, id.mtime, id.ctime)) && r.magicOk.None? && r.heavySince.None?
    && r.group.None? && r.sparse.None? && r.full.None? && r.skipReason.None? && r.prev.None? && r.lastError.None?
    && r.firstSeen == k.now && r.lastSeen == k.now && r.updated == k.now
  }

  ghost predicate FoundBy(w: World, k: Settings, r: Row) {
    exists p, id :: IsFile(w, p, id) && IsScanned(w, k, p, id, r)
  }

  /** The old rows as they were, and the others each for a file found. */
  ghost predicate Grown(w: World, k: Settings, base: map<RowId, Row>, rows: map<RowId, Row>) {
    && (forall i :: i in base ==> i in rows && rows[i] == base[i])
    && (forall i :: i in rows && i !in base ==> FoundBy(w, k, rows[i]))
  }

  ghost predicate BatchOk(w: World, k: Settings, batch: seq<ScanRow>) {
    forall j :: 0 <= j < |batch| ==> FoundBy(w, k, RowOf(batch[j], k.now))
  }

  /** The row that a batch entry becomes. */
  ghost function RowOf(b: ScanRow, now: Ts): Row { NewRow(b.seen, b.loc, b.state, b.readyAt, b.priority, now) }

  lemma EntryFound(w: World, k: Settings, p: Path, id: Identity)
    requires IsFile(w, p, id)
    ensures FoundBy(w, k, RowOf(NewScanRow(w, k, p, id), k.now))
  {
    assert IsScanned(w, k, p, id, RowOf(NewScanRow(w, k, p, id), k.now));
  }

  lemma {:induction false} InsertGrown(w: World, k: Settings, base: map<RowId, Row>, rows: map<RowId, Row>,
                                       batch: seq<ScanRow>)
    requires Grown(w, k, base, rows) && BatchOk(w, k, batch)
    ensures Grown(w, k, base, ScanInsert(rows, batch, k.now))
    decreases |batch|
  {
    if batch != [] {
      assert FoundBy(w, k, RowOf(batch[0], k.now));
      InsertGrown(w, k, base, ScanInsertOne(rows, batch[0], k.now), batch[1..]);
    }
  }

  // ---------------------------------------------------------------- a run

  ghost predicate WritesFound(w: World, k: Settings, base: map<RowId, Row>, s: Scan) {
    Grown(w, k, base, s.rows) && BatchOk(w, k, s.batch)
  }

  lemma FlushFound(w: World, k: Settings, base: map<RowId, Row>, s: Scan)
    requires WritesFound(w, k, base, s)
    ensures WritesFound(w, k, base, Flush(k, s))
  {
    InsertGrown(w, k, base, s.rows, s.batch);
  }

  lemma SeeFileFound(w: World, o: Weather, k: Settings, base: map<RowId, Row>, s: Scan, p: Path, len: nat,
                     seen: Option<Identity>)
    requires WritesFound(w, k, base, s) && At(w.tree, p) == Some(File(len, seen))
    ensures WritesFound(w, k, base, SeeFile(w, o, k, s, p, len, seen))
  {
    if seen.Some? && Passes(w, p, seen.value.size) {
      EntryFound(w, k, p, seen.value);
      var s1 := s.(batch := s.batch + [NewScanRow(w, k, p, seen.value)]);
      assert WritesFound(w, k, base, s1);
      FlushFound(w, k, base, s1);
    }
  }

  lemma TurnFound(w: World, o: Weather, k: Settings, base: map<RowId, Row>, s: Scan, found: Found, it: Iter)
    requires WritesFound(w, k, base, s) && (found.Entry? ==> At(w.tree, found.path) == Some(found.node))
    ensures WritesFound(w, k, base, Turn(w, o, k, s, found, it))
  {
    if found.Entry? {
      var s1 := CloseTo(s, |found.path|).(it := it);
      TurnSees(w, o, k, s, found.path, found.node, it);
      if found.node.File? { SeeFileFound(w, o, k, base, s1, found.path, found.node.len, found.node.seen); }
    }
  }

  lemma TurnIterOk(w: World, o: Weather, k: Settings, s: Scan, found: Found)
    requires TreeOk(w.tree) && IterOk(w, s.it) && Next(o, s.it).0 == Some(found)
    ensures IterOk(w, Turn(w, o, k, s, found, Next(o, s.it).1).it)
    ensures found.Entry? ==> At(w.tree, found.path) == Some(found.node)
  {
    NextOk(w, o, s.it);
    TurnFrames(w, o, k, s, found, Next(o, s.it).1);
  }

  lemma {:induction false} LoopFound(w: World, o: Weather, k: Settings, base: map<RowId, Row>, s: Scan, n: nat)
    requires TreeOk(w.tree) && IterOk(w, s.it) && WritesFound(w, k, base, s)
    ensures WritesFound(w, k, base, Loop(w, o, k, s, n).s)
    decreases NodesLeft(s.it), ItemsLeft(s.it)
  {
    var found := Next(o, s.it).0;
    if found.None? || o.stop(n) {
      LoopEnds(w, o, k, s, n);
    } else {
      var it := Next(o, s.it).1;
      var s' := Turn(w, o, k, s, found.value, it);
      LoopTurns(w, o, k, s, n, found.value, s');
      TurnIterOk(w, o, k, s, found.value);
      TurnFound(w, o, k, base, s, found.value, it);
      LoopFound(w, o, k, base, s', n + 1);
    }
  }

  /** However a run ends, it leaves the rows there were and adds one for files of the tree only, dated by their age. */
  lemma RunWritesFound(w: World, o: Weather, k: Settings, rows: map<RowId, Row>)
    requires TreeOk(w.tree)
    ensures Grown(w, k, rows, RunScan(w, o, k, rows).s.rows)
  {
    var start := StartScan(w, o, rows);
    LoopFound(w, o, k, rows, start, 0);
    var s := Loop(w, o, k, start, 0).s;
    FlushFound(w, k, rows, s);
    FlushFound(w, k, rows, CloseTo(s, 0));
  }

  // ---------------------------------------------------------------- after a complete run

  /** Another live file of the same size on the same file system. */
  ghost predicate HasRival(rows: map<RowId, Row>, i: RowId, j: RowId)
    requires i in rows
  {
    && j in rows && j != i && rows[j].state != Missing && rows[j].state != Gone
    && rows[j].domain == rows[i].domain && rows[j].size == rows[i].size
  }

  /** A sized row without a date waits for the end of the scan of its root. */
  ghost predicate Waits(r: Row, root: int) { r.loc.root == root && r.state == Sized && r.readyAt.None? }

  /** The end of a scan leaves no row of its root waiting: with a rival it is due now, without one it is distinct. */
  lemma NoneLeftWaiting(rows: map<RowId, Row>, root: int, now: Ts, i: RowId)
    requires i in rows
    ensures var rows' := ScanPhaseB(rows, root, now);
      && rows'.Keys == rows.Keys && !Waits(rows'[i], root)
      && (if !Waits(rows[i], root) then rows'[i] == rows[i]
          else if exists j :: HasRival(rows, i, j) then rows'[i] == rows[i].(readyAt := Some(now), updated := now)
          else rows'[i] == rows[i].(state := Distinct, updated := now))
  {
    assert (exists j :: HasRival(rows, i, j)) <==> HasPeer(rows, i) by {
      if j :| HasRival(rows, i, j) { assert rows[j].Live(); }
      if HasPeer(rows, i) {
        var j :| j in rows && j != i && rows[j].Live() && rows[j].domain == rows[i].domain
                 && rows[j].size == rows[i].size;
        assert HasRival(rows, i, j);
      }
    }
  }
}
