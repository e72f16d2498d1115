/**
 * A resumed scan loses nothing: over any runs of the initial scan on one tree, whatever
 * is unreadable and wherever a run is cut or killed, a file that the stored cursor makes
 * the next run leave out has its row already.
 */
module Resume {
  import opened Wrappers
  import opened Model
  import opened Selection
  import opened StoreSpec
  import opened OpsSpec
  import opened PathText
  import opened Tree
  import opened Walk

  /** The key of the file at `p`, if it passes the filter and `statx` works on it. */
  ghost function KeyAt(w: World, p: Path): Option<FileKey> {
    match At(w.tree, p)
    case Some(File(_, Some(id))) =>
      if w.wanted(p) && id.size >= w.minSize && !w.optedOut(p) then Some(id.key) else None
    case _ => None
  }

  ghost function Keys(rows: map<RowId, Row>): set<FileKey> { set i | i in rows :: rows[i].key }

  ghost function BatchKeys(batch: seq<ScanRow>): set<FileKey> { set j | 0 <= j < |batch| :: batch[j].seen.key }

  lemma InsertOneKeys(rows: map<RowId, Row>, b: ScanRow, now: Ts)
    ensures Keys(ScanInsertOne(rows, b, now)) == Keys(rows) + {b.seen.key}
  {
    var after := ScanInsertOne(rows, b, now);
    var n := NextId(rows.Keys);
    if FindByKey(rows, b.seen.key).None? {
      assert after[n].key == b.seen.key;
      forall x | x in Keys(rows) ensures x in Keys(after) {
        var i :| i in rows && rows[i].key == x;
        assert after[i] == rows[i];
      }
    }
  }

  lemma {:induction false} InsertKeys(rows: map<RowId, Row>, batch: seq<ScanRow>, now: Ts)
    ensures Keys(ScanInsert(rows, batch, now)) == Keys(rows) + BatchKeys(batch)
    decreases |batch|
  {
    if batch != [] {
      InsertOneKeys(rows, batch[0], now);
      InsertKeys(ScanInsertOne(rows, batch[0], now), batch[1..], now);
      assert batch == [batch[0]] + batch[1..];
      BatchKeysConcat([batch[0]], batch[1..]);
      assert BatchKeys([batch[0]]) == {batch[0].seen.key};
    }
  }

  lemma BatchKeysConcat(a: seq<ScanRow>, b: seq<ScanRow>)
    ensures BatchKeys(a + b) == BatchKeys(a) + BatchKeys(b)
  {
    forall x | x in BatchKeys(a) + BatchKeys(b) ensures x in BatchKeys(a + b) {
      if x in BatchKeys(a) {
        var j :| 0 <= j < |a| && a[j].seen.key == x;
        assert (a + b)[j] == a[j];
      } else {
        var j :| 0 <= j < |b| && b[j].seen.key == x;
        assert (a + b)[|a| + j] == b[j];
      }
    }
  }

  /** Every file that a run resumed at `cursor` leaves out is among `keys`. */
  ghost predicate Covered(w: World, cursor: Path, keys: set<FileKey>) {
    forall p :: KeyAt(w, p).Some? && LeftOut(p, cursor) ==> KeyAt(w, p).value in keys
  }

  // ---------------------------------------------------------------- the frames of the iterator

  /** Everything left in the listing lies behind `d`, which is deeper. */
  ghost predicate ClearOf(d: Path, f: Frame) {
    && |f.dir| < |d| && f.dir <= d
    && forall i :: 0 <= i < |f.rest| ==> f.rest[i].Good? && Before(d[|f.dir|], f.rest[i].name)
  }

  ghost predicate FrameOk(w: World, f: Frame) {
    && (forall i :: 0 <= i < |f.rest| && f.rest[i].Good? ==>
          At(w.tree, f.dir + [f.rest[i].name]) == Some(f.rest[i].node))
    && (forall i, j :: 0 <= i < j < |f.rest| && f.rest[i].Good? ==>
          f.rest[j].Good? && Before(f.rest[i].name, f.rest[j].name))
  }

  ghost predicate FramesOk(w: World, fs: seq<Frame>) {
    && (forall i :: 0 <= i < |fs| ==> FrameOk(w, fs[i]))
    && (forall i, j :: 0 <= i < j < |fs| ==> ClearOf(fs[j].dir, fs[i]))
  }

  /** The listing of the frame still leads to `p`, or may have lost the way to it. */
  ghost predicate LeadsTo(f: Frame, p: Path) {
    && |f.dir| < |p| && f.dir <= p
    && exists i :: 0 <= i < |f.rest| && (f.rest[i].Bad? || f.rest[i].name == p[|f.dir|])
  }

  ghost predicate Pending(it: Iter, p: Path) {
    it.start.Some? || exists i :: 0 <= i < |it.frames| && LeadsTo(it.frames[i], p)
  }

  /** Nothing left in the frames lies before `d`. */
  ghost predicate AllClear(d: Path, fs: seq<Frame>) {
    forall i :: 0 <= i < |fs| ==> d <= fs[i].dir || ClearOf(d, fs[i])
  }

  lemma ClearNotLeftOut(d: Path, f: Frame, p: Path)
    requires (d <= f.dir || ClearOf(d, f)) && LeadsTo(f, p)
    ensures !LeftOut(p, d)
  {
    if d <= f.dir {
      BelowNotLeftOut(p, d);
    } else {
      LaterNotLeftOut(p, d, |f.dir|);
    }
  }

  lemma PendingNotLeftOut(d: Path, it: Iter, p: Path)
    requires it.start.None? && AllClear(d, it.frames) && Pending(it, p)
    ensures !LeftOut(p, d)
  {
    var i :| 0 <= i < |it.frames| && LeadsTo(it.frames[i], p);
    ClearNotLeftOut(d, it.frames[i], p);
  }

  // ---------------------------------------------------------------- listings

  ghost predicate IsKid(kids: seq<Kid>, item: Item) {
    item.Good? && exists j :: 0 <= j < |kids| && kids[j] == Kid(item.name, item.node)
  }

  lemma {:induction false} EntriesFacts(o: Weather, dir: Path, kids: seq<Kid>)
    requires Sorted(kids)
    ensures forall i :: 0 <= i < |Entries(o, dir, kids)| ==>
      Entries(o, dir, kids)[i].Good? && IsKid(kids, Entries(o, dir, kids)[i])
    ensures forall i, j :: 0 <= i < j < |Entries(o, dir, kids)| ==>
      Before(Entries(o, dir, kids)[i].name, Entries(o, dir, kids)[j].name)
  {
    if kids != [] {
      EntriesFacts(o, dir, kids[1..]);
      var rest := Entries(o, dir, kids[1..]);
      assert IsKid(kids, Good(kids[0].name, kids[0].node));
      forall i | 0 <= i < |rest|
        ensures Before(kids[0].name, rest[i].name) && IsKid(kids, rest[i])
      {
        assert IsKid(kids[1..], rest[i]);
        var j :| 0 <= j < |kids[1..]| && kids[1..][j] == Kid(rest[i].name, rest[i].node);
        assert kids[j + 1] == kids[1..][j];
      }
    }
  }

  lemma {:induction false} EntriesComplete(o: Weather, dir: Path, kids: seq<Kid>, name: Name)
    requires o.errors(dir) == 0 && FindKid(kids, name).Some?
    ensures var l := Entries(o, dir, kids); exists i :: 0 <= i < |l| && l[i].Good? && l[i].name == name
  {
    if kids[0].name == name {
      assert Entries(o, dir, kids)[0].name == name;
    } else {
      EntriesComplete(o, dir, kids[1..], name);
      var rest := Entries(o, dir, kids[1..]);
      var i :| 0 <= i < |rest| && rest[i].Good? && rest[i].name == name;
      assert Entries(o, dir, kids)[i + 1] == rest[i];
    }
  }

  lemma ListingOk(w: World, o: Weather, dir: Path, kids: seq<Kid>)
    requires Sorted(kids) && At(w.tree, dir) == Some(Dir(kids))
    ensures FrameOk(w, Frame(dir, Listing(o, dir, kids)))
  {
    EntriesFacts(o, dir, kids);
    var l, n := Listing(o, dir, kids), o.errors(dir);
    forall i | 0 <= i < |l| && l[i].Good? ensures At(w.tree, dir + [l[i].name]) == Some(l[i].node) {
      var e := Entries(o, dir, kids)[i - n];
      assert IsKid(kids, e);
      var j :| 0 <= j < |kids| && kids[j] == Kid(e.name, e.node);
      FindKidAt(kids, j);
      AtConcat(w.tree, dir, [e.name]);
      assert [e.name][1..] == [];
    }
  }

  /** Above something that exists there is a directory that lists the way to it. */
  lemma ListedAbove(w: World, dir: Path, node: Node, p: Path)
    requires At(w.tree, dir) == Some(node) && At(w.tree, p).Some? && dir <= p && |dir| < |p|
    ensures node.Dir? && FindKid(node.kids, p[|dir|]).Some?
  {
    AtAbove(w.tree, p, |dir|);
    assert p[..|dir|] == dir;
    assert At(node, p[|dir|..]).Some?;
  }

  /** A directory just opened leads to everything below it. */
  lemma OpenedLeads(o: Weather, dir: Path, kids: seq<Kid>, p: Path)
    requires dir <= p && |dir| < |p| && FindKid(kids, p[|dir|]).Some?
    ensures LeadsTo(Frame(dir, Listing(o, dir, kids)), p)
  {
    var l, n := Listing(o, dir, kids), o.errors(dir);
    if n == 0 {
      EntriesComplete(o, dir, kids, p[|dir|]);
      var es := Entries(o, dir, kids);
      var i :| 0 <= i < |es| && es[i].Good? && es[i].name == p[|dir|];
      assert l[i] == es[i];
    } else {
      assert l[0].Bad?;
    }
  }

  // ---------------------------------------------------------------- one step of the iterator

  lemma VisitOk(w: World, o: Weather, fs: seq<Frame>, q: Path, node: Node)
    requires TreeOk(w.tree) && FramesOk(w, fs) && At(w.tree, q) == Some(node)
    requires forall i :: 0 <= i < |fs| ==> ClearOf(q, fs[i])
    ensures FramesOk(w, Visit(o, fs, q, node))
    ensures AllClear(q, Visit(o, fs, q, node))
  {
    assert NodeOk(At(w.tree, q).value);
    if node.Dir? { ListingOk(w, o, q, node.kids); }
  }

  ghost predicate IterOk(w: World, it: Iter) {
    && FramesOk(w, it.frames)
    && (it.start.Some? ==> it.frames == [] && (it.start.value.Good? ==> it.start.value.node == w.tree))
  }

  ghost predicate TakesTop(frames: seq<Frame>, left: seq<Frame>) {
    && frames != [] && frames[|frames| - 1].rest != []
    && left == frames[..|frames| - 1] + [Frame(frames[|frames| - 1].dir, frames[|frames| - 1].rest[1..])]
  }

  /** The frames after the top item is taken, and the path of that item. */
  lemma TakeOk(w: World, frames: seq<Frame>, left: seq<Frame>)
    requires FramesOk(w, frames)
    requires TakesTop(frames, left)
    ensures FramesOk(w, left)
    ensures frames[|frames| - 1].rest[0].Good? ==>
      forall i :: 0 <= i < |left| ==> ClearOf(frames[|frames| - 1].dir + [frames[|frames| - 1].rest[0].name], left[i])
  {
  }

  /** A directory deeper than the frames that was clear of them is clear of what is left of them. */
  lemma TakeClear(frames: seq<Frame>, left: seq<Frame>, d: Path)
    requires AllClear(d, frames)
    requires TakesTop(frames, left)
    ensures AllClear(d, left)
    ensures |d| <= |frames[|frames| - 1].dir| ==> d <= frames[|frames| - 1].dir
  {
  }

  /** What a step of the iterator keeps, and what is no longer pending after it. */
  lemma NextOk(w: World, o: Weather, it: Iter)
    requires TreeOk(w.tree) && IterOk(w, it)
    ensures var (found, it') := Next(o, it);
      && IterOk(w, it') && it'.start.None?
      && (found.None? ==> forall p :: !Pending(it', p) && (it.start.None? ==> !Pending(it, p)))
      && (found.Some? && found.value.Entry? ==>
            At(w.tree, found.value.path) == Some(found.value.node) && AllClear(found.value.path, it'.frames))
  {
    match it.start
    case Some(Bad) =>
    case Some(Good(_, node)) => VisitOk(w, o, [], [], node);
    case None =>
      var frames := DropEmpty(it.frames);
      if frames != [] {
        var top := frames[|frames| - 1];
        var left := frames[..|frames| - 1] + [Frame(top.dir, top.rest[1..])];
        TakeOk(w, frames, left);
        if top.rest[0].Good? { VisitOk(w, o, left, top.dir + [top.rest[0].name], top.rest[0].node); }
      }
  }

  /** A file that was pending is the one found, or still pending. */
  lemma NextPending(w: World, o: Weather, it: Iter, p: Path)
    requires TreeOk(w.tree) && IterOk(w, it) && KeyAt(w, p).Some? && Pending(it, p)
    requires Next(o, it).0.Some? && Next(o, it).0.value.Entry?
    ensures p == Next(o, it).0.value.path || Pending(Next(o, it).1, p)
  {
    if it.start.None? { FramePending(w, o, it, p); } else if p != [] { StartPending(w, o, it, p); }
  }

  lemma StartPending(w: World, o: Weather, it: Iter, p: Path)
    requires IterOk(w, it) && KeyAt(w, p).Some? && it.start.Some? && it.start.value.Good? && p != []
    ensures Pending(Next(o, it).1, p)
  {
    ListedAbove(w, [], w.tree, p);
    OpenedLeads(o, [], w.tree.kids, p);
    assert LeadsTo(Next(o, it).1.frames[0], p);
  }

  /** What is left of the frames once the top item is taken. */
  function Left(frames: seq<Frame>): seq<Frame>
    requires frames != [] && frames[|frames| - 1].rest != []
  {
    var top := frames[|frames| - 1];
    frames[..|frames| - 1] + [Frame(top.dir, top.rest[1..])]
  }

  /** An entry that a started iterator finds is the top item of its frames. */
  lemma NextTakesTop(o: Weather, it: Iter)
    requires it.start.None? && Next(o, it).0.Some? && Next(o, it).0.value.Entry?
    ensures var frames := DropEmpty(it.frames);
      frames != [] && frames[|frames| - 1].rest != [] && frames[|frames| - 1].rest[0].Good?
      && var top := frames[|frames| - 1];
         Next(o, it) == (Some(Entry(top.dir + [top.rest[0].name], top.rest[0].node)),
                         Iter(None, Visit(o, Left(frames), top.dir + [top.rest[0].name], top.rest[0].node)))
  {
  }

  /** Frames that lead somewhere are not dropped for being empty. */
  lemma DropKeepsLeading(w: World, fs: seq<Frame>, i: nat, p: Path)
    requires FramesOk(w, fs) && i < |fs| && LeadsTo(fs[i], p)
    ensures FramesOk(w, DropEmpty(fs)) && i < |DropEmpty(fs)| && LeadsTo(DropEmpty(fs)[i], p)
  {
  }

  /** A path the frames lead to is that of the top item, or they still lead there after it is taken and visited. */
  lemma TopPending(w: World, o: Weather, frames: seq<Frame>, i: nat, p: Path, q: Path, after: Iter)
    requires TreeOk(w.tree) && FramesOk(w, frames) && KeyAt(w, p).Some? && i < |frames| && LeadsTo(frames[i], p)
    requires frames[|frames| - 1].rest != [] && frames[|frames| - 1].rest[0].Good?
    requires var top := frames[|frames| - 1];
      q == top.dir + [top.rest[0].name] && after == Iter(None, Visit(o, Left(frames), q, top.rest[0].node))
    ensures p == q || Pending(after, p)
  {
    TakePending(w, o, frames, Left(frames), after.frames, i, p);
  }

  lemma FramePending(w: World, o: Weather, it: Iter, p: Path)
    requires TreeOk(w.tree) && IterOk(w, it) && KeyAt(w, p).Some? && it.start.None? && Pending(it, p)
    requires Next(o, it).0.Some? && Next(o, it).0.value.Entry?
    ensures p == Next(o, it).0.value.path || Pending(Next(o, it).1, p)
  {
    var i :| 0 <= i < |it.frames| && LeadsTo(it.frames[i], p);
    DropKeepsLeading(w, it.frames, i, p);
    DroppedPending(w, o, it, DropEmpty(it.frames), i, p);
  }

  lemma DroppedPending(w: World, o: Weather, it: Iter, frames: seq<Frame>, i: nat, p: Path)
    requires TreeOk(w.tree) && KeyAt(w, p).Some? && it.start.None? && frames == DropEmpty(it.frames)
    requires FramesOk(w, frames) && i < |frames| && LeadsTo(frames[i], p)
    requires Next(o, it).0.Some? && Next(o, it).0.value.Entry?
    ensures p == Next(o, it).0.value.path || Pending(Next(o, it).1, p)
  {
    NextTakesTop(o, it);
    TopPending(w, o, frames, i, p, Next(o, it).0.value.path, Next(o, it).1);
  }

  lemma TakePending(w: World, o: Weather, frames: seq<Frame>, left: seq<Frame>, after: seq<Frame>, i: nat, p: Path)
    requires TreeOk(w.tree) && FramesOk(w, frames) && KeyAt(w, p).Some?
    requires i < |frames| && LeadsTo(frames[i], p)
    requires TakesTop(frames, left) && frames[|frames| - 1].rest[0].Good?
    requires var n := |frames| - 1;
      after == Visit(o, left, frames[n].dir + [frames[n].rest[0].name], frames[n].rest[0].node)
    ensures var n := |frames| - 1;
      p == frames[n].dir + [frames[n].rest[0].name] || exists j :: 0 <= j < |after| && LeadsTo(after[j], p)
  {
    var n := |frames| - 1;
    var top := frames[n];
    var q, node := top.dir + [top.rest[0].name], top.rest[0].node;
    if i < n {
      assert after[i] == frames[i];
    } else {
      var x :| 0 <= x < |top.rest| && (top.rest[x].Bad? || top.rest[x].name == p[|top.dir|]);
      if x > 0 {
        assert after[n].rest[x - 1] == top.rest[x];
        assert LeadsTo(after[n], p);
      } else if p != q {
        assert q <= p;
        ListedAbove(w, q, node, p);
        OpenedLeads(o, q, node.kids, p);
        assert LeadsTo(after[n + 1], p);
      }
    }
  }

  /** An open directory above the entry found stays clear. */
  lemma NextClear(w: World, o: Weather, it: Iter, d: Path)
    requires IterOk(w, it) && it.start.None? && AllClear(d, it.frames)
    requires Next(o, it).0.Some?
    requires Next(o, it).0.value.Entry? ==> |d| < |Next(o, it).0.value.path|
    ensures AllClear(d, Next(o, it).1.frames)
  {
    var frames := DropEmpty(it.frames);
    var n := |frames| - 1;
    var left := frames[..n] + [Frame(frames[n].dir, frames[n].rest[1..])];
    TakeClear(frames, left, d);
  }

  // ---------------------------------------------------------------- the invariant of a run

  ghost function Noted(s: Scan): set<FileKey> { Keys(s.rows) + BatchKeys(s.batch) }

  /** Without an error so far, every file is noted or still ahead. */
  ghost predicate NothingLost(w: World, s: Scan) {
    s.errors == 0 ==> forall p :: KeyAt(w, p).Some? ==> KeyAt(w, p).value in Noted(s) || Pending(s.it, p)
  }

  /** Open directories nest, all of them dirty after an error, and nothing ahead lies before them. */
  ghost predicate OpenOk(s: Scan) {
    && (s.dirtyFromNow <==> s.errors > 0)
    && (s.it.start.Some? ==> s.open == [])
    && (forall i, j :: 0 <= i < j < |s.open| ==> |s.open[i].rel| < |s.open[j].rel|)
    && (forall i :: 0 <= i < |s.open| ==> AllClear(s.open[i].rel, s.it.frames))
    && (s.errors > 0 ==> forall i :: 0 <= i < |s.open| ==> s.open[i].dirty)
  }

  /** What the cursors stand for. */
  ghost predicate CursorsOk(w: World, k: Settings, s: Scan) {
    && (s.waiting.Some? ==> Covered(w, s.waiting.value, Noted(s)))
    && (s.safe.Some? ==> Covered(w, s.safe.value, Keys(s.rows)))
    && (k.cursor.Some? ==> Covered(w, k.cursor.value, Keys(s.rows)))
  }

  ghost predicate Inv(w: World, k: Settings, s: Scan) {
    IterOk(w, s.it) && OpenOk(s) && NothingLost(w, s) && CursorsOk(w, k, s)
  }

  /** A directory done without an error so far: everything before it is noted. */
  lemma DoneCovers(w: World, s: Scan, d: Path)
    requires s.errors == 0 && NothingLost(w, s) && s.it.start.None? && AllClear(d, s.it.frames)
    ensures Covered(w, d, Noted(s))
  {
    forall p | KeyAt(w, p).Some? && LeftOut(p, d) ensures KeyAt(w, p).value in Noted(s) {
      if Pending(s.it, p) { PendingNotLeftOut(d, s.it, p); }
    }
  }

  /** The scan after its innermost open directory is done. */
  function Closed(s: Scan): Scan
    requires s.open != []
  {
    var n := |s.open| - 1;
    DirDone(s.(open := s.open[..n]), s.open[n])
  }

  lemma CloseOne(w: World, k: Settings, s: Scan)
    requires Inv(w, k, s) && s.open != []
    ensures Inv(w, k, Closed(s))
  {
    var last := s.open[|s.open| - 1];
    if !last.dirty { DoneCovers(w, s, last.rel); }
    assert Noted(Closed(s)) == Noted(s);
  }

  lemma {:induction false} CloseKeeps(w: World, k: Settings, s: Scan, depth: nat)
    requires Inv(w, k, s)
    ensures Inv(w, k, CloseTo(s, depth))
    ensures forall i :: 0 <= i < |CloseTo(s, depth).open| ==> |CloseTo(s, depth).open[i].rel| < depth
    decreases |s.open|
  {
    if s.open != [] && |s.open[|s.open| - 1].rel| >= depth {
      CloseOne(w, k, s);
      CloseKeeps(w, k, Closed(s), depth);
      assert CloseTo(s, depth) == CloseTo(Closed(s), depth);
    } else {
      assert CloseTo(s, depth) == s && OpenOk(s);
    }
  }

  lemma FlushKeeps(w: World, k: Settings, s: Scan)
    requires Inv(w, k, s)
    ensures Inv(w, k, Flush(k, s)) && Noted(Flush(k, s)) == Noted(s) == Keys(Flush(k, s).rows)
  {
    InsertKeys(s.rows, s.batch, k.now);
  }

  /** The row of the file at `p` is noted, if the file has a key. */
  lemma SeeFileKeeps(w: World, o: Weather, k: Settings, s: Scan, p: Path, len: nat, seen: Option<Identity>)
    requires WorldOk(w) && At(w.tree, p) == Some(File(len, seen))
    requires IterOk(w, s.it) && OpenOk(s) && CursorsOk(w, k, s)
    requires s.errors == 0 ==>
      forall x :: KeyAt(w, x).Some? ==> KeyAt(w, x).value in Noted(s) || x == p || Pending(s.it, x)
    ensures Inv(w, k, SeeFile(w, o, k, s, p, len, seen))
  {
    assert NodeOk(At(w.tree, p).value);
    var rough := if o.lstatWorks(p) then len else LSTAT_UNKNOWN;
    if PassesPath(w, p, rough) && seen.Some? && Passes(w, p, seen.value.size) {
      var s1 := s.(batch := s.batch + [NewScanRow(w, k, p, seen.value)]);
      BatchKeysConcat(s.batch, [NewScanRow(w, k, p, seen.value)]);
      assert [NewScanRow(w, k, p, seen.value)][0].seen.key in BatchKeys([NewScanRow(w, k, p, seen.value)]);
      assert Inv(w, k, s1);
      FlushKeeps(w, k, s1);
    }
  }

  lemma PrunedCovered(w: World, cursor: Path, keys: set<FileKey>, q: Path, p: Path)
    requires Covered(w, cursor, keys) && Prunable(q, cursor) && q <= p && |q| < |p| && KeyAt(w, p).Some?
    ensures KeyAt(w, p).value in keys
  {
    PrunableBelow(q, p[..|p| - 1], cursor);
    assert LeftOut(p, cursor);
  }

  lemma SkipKeeps(w: World, k: Settings, s: Scan, q: Path)
    requires IterOk(w, s.it) && s.it.start.None? && OpenOk(s) && CursorsOk(w, k, s)
    requires k.cursor.Some? && Prunable(q, k.cursor.value)
    requires s.it.frames != [] && s.it.frames[|s.it.frames| - 1].dir == q
    requires NothingLost(w, s)
    ensures Inv(w, k, s.(it := SkipDir(s.it)))
  {
    var n := |s.it.frames| - 1;
    var it' := SkipDir(s.it);
    forall p | s.errors == 0 && KeyAt(w, p).Some? ensures KeyAt(w, p).value in Noted(s) || Pending(it', p) {
      if Pending(s.it, p) {
        var i :| 0 <= i < |s.it.frames| && LeadsTo(s.it.frames[i], p);
        if i == n {
          PrunedCovered(w, k.cursor.value, Keys(s.rows), q, p);
        } else {
          assert it'.frames[i] == s.it.frames[i];
        }
      }
    }
  }

  lemma TurnKeeps(w: World, o: Weather, k: Settings, s: Scan)
    requires WorldOk(w) && Inv(w, k, s) && Next(o, s.it).0.Some?
    ensures Inv(w, k, Turn(w, o, k, s, Next(o, s.it).0.value, Next(o, s.it).1))
  {
    var (f, it') := Next(o, s.it);
    NextOk(w, o, s.it);
    match f.value
    case Unreadable =>
      var s' := Turn(w, o, k, s, f.value, it');
      forall i | 0 <= i < |s'.open| ensures AllClear(s'.open[i].rel, it'.frames) {
        NextClear(w, o, s.it, s.open[i].rel);
      }
      assert Noted(s') == Noted(s);
    case Entry(q, node) => EntryKeeps(w, o, k, s, q, node, it');
  }

  /** An entry is found, the directories above it are closed, and only the entry itself is unaccounted for. */
  ghost predicate AtEntry(w: World, k: Settings, s: Scan, q: Path, node: Node) {
    && At(w.tree, q) == Some(node)
    && IterOk(w, s.it) && s.it.start.None? && OpenOk(s) && CursorsOk(w, k, s)
    && (forall i :: 0 <= i < |s.open| ==> |s.open[i].rel| < |q|)
    && AllClear(q, s.it.frames)
    && (node.Dir? ==> s.it.frames != [] && s.it.frames[|s.it.frames| - 1].dir == q)
    && (s.errors == 0 ==>
          forall x :: KeyAt(w, x).Some? ==> KeyAt(w, x).value in Noted(s) || x == q || Pending(s.it, x))
  }

  /** Directories above the entry found stay open, and stay clear. */
  lemma OpenAfterNext(w: World, o: Weather, s: Scan, q: Path, node: Node, it': Iter)
    requires IterOk(w, s.it) && OpenOk(s) && Next(o, s.it) == (Some(Entry(q, node)), it') && it'.start.None?
    requires forall i :: 0 <= i < |s.open| ==> |s.open[i].rel| < |q|
    ensures OpenOk(s.(it := it'))
  {
    forall i | 0 <= i < |s.open| ensures AllClear(s.open[i].rel, it'.frames) {
      NextClear(w, o, s.it, s.open[i].rel);
    }
  }

  /** What was ahead is the entry found or still ahead. */
  lemma AheadAfterNext(w: World, o: Weather, s: Scan, q: Path, node: Node, it': Iter)
    requires TreeOk(w.tree) && IterOk(w, s.it) && NothingLost(w, s) && Next(o, s.it) == (Some(Entry(q, node)), it')
    ensures s.errors == 0 ==>
      forall x :: KeyAt(w, x).Some? ==> KeyAt(w, x).value in Noted(s) || x == q || Pending(it', x)
  {
    forall x | s.errors == 0 && KeyAt(w, x).Some? ensures KeyAt(w, x).value in Noted(s) || x == q || Pending(it', x) {
      if Pending(s.it, x) { NextPending(w, o, s.it, x); }
    }
  }

  lemma AfterNext(w: World, o: Weather, k: Settings, s: Scan, q: Path, node: Node, it': Iter)
    requires WorldOk(w) && Inv(w, k, s) && Next(o, s.it) == (Some(Entry(q, node)), it')
    requires forall i :: 0 <= i < |s.open| ==> |s.open[i].rel| < |q|
    ensures AtEntry(w, k, s.(it := it'), q, node)
  {
    NextOk(w, o, s.it);
    if node.Dir? { DirOnTop(w, o, s.it); }
    OpenAfterNext(w, o, s, q, node, it');
    AheadAfterNext(w, o, s, q, node, it');
    assert Noted(s.(it := it')) == Noted(s);
  }

  lemma EntryKeeps(w: World, o: Weather, k: Settings, s: Scan, q: Path, node: Node, it': Iter)
    requires WorldOk(w) && Inv(w, k, s) && Next(o, s.it) == (Some(Entry(q, node)), it')
    ensures Inv(w, k, Turn(w, o, k, s, Entry(q, node), it'))
  {
    CloseKeeps(w, k, s, |q|);
    AfterNext(w, o, k, CloseTo(s, |q|), q, node, it');
    SeenKeeps(w, o, k, CloseTo(s, |q|).(it := it'), q, node);
    TurnSees(w, o, k, s, q, node, it');
  }

  /** A directory just found lies on top of the frames. */
  lemma DirOnTop(w: World, o: Weather, it: Iter)
    requires Next(o, it).0.Some? && Next(o, it).0.value.Entry? && Next(o, it).0.value.node.Dir?
    ensures var fs := Next(o, it).1.frames; fs != [] && fs[|fs| - 1].dir == Next(o, it).0.value.path
  {
  }

  /** What a turn does with an entry once the directories above it are closed. */
  function Seen(w: World, o: Weather, k: Settings, s: Scan, q: Path, node: Node): Scan {
    match node
    case Dir(_) => SeeDir(k, s, q)
    case File(len, seen) => SeeFile(w, o, k, s, q, len, seen)
    case Other => s
  }

  lemma TurnSees(w: World, o: Weather, k: Settings, s: Scan, q: Path, node: Node, it': Iter)
    ensures Turn(w, o, k, s, Entry(q, node), it') == Seen(w, o, k, CloseTo(s, |q|).(it := it'), q, node)
  {
  }

  lemma SeenKeeps(w: World, o: Weather, k: Settings, s: Scan, q: Path, node: Node)
    requires WorldOk(w) && AtEntry(w, k, s, q, node)
    ensures Inv(w, k, Seen(w, o, k, s, q, node))
  {
    match node
    case File(len, seen) => SeeFileKeeps(w, o, k, s, q, len, seen);
    case Other => OtherKeeps(w, k, s, q);
    case Dir(_) =>
      OtherKeeps(w, k, s, q);
      SeeDirKeeps(w, k, s, q);
  }

  /** Only a file can be the file in question. */
  lemma OtherKeeps(w: World, k: Settings, s: Scan, q: Path)
    requires IterOk(w, s.it) && OpenOk(s) && CursorsOk(w, k, s) && KeyAt(w, q).None?
    requires s.errors == 0 ==>
      forall x :: KeyAt(w, x).Some? ==> KeyAt(w, x).value in Noted(s) || x == q || Pending(s.it, x)
    ensures Inv(w, k, s)
  {
  }

  lemma SeeDirKeeps(w: World, k: Settings, s: Scan, q: Path)
    requires Inv(w, k, s) && s.it.start.None?
    requires forall i :: 0 <= i < |s.open| ==> |s.open[i].rel| < |q|
    requires AllClear(q, s.it.frames) && s.it.frames != [] && s.it.frames[|s.it.frames| - 1].dir == q
    ensures Inv(w, k, SeeDir(k, s, q))
  {
    if q != [] && k.cursor.Some? && Prunable(q, k.cursor.value) {
      SkipKeeps(w, k, s, q);
    } else {
      assert Noted(SeeDir(k, s, q)) == Noted(s);
    }
  }

  // ---------------------------------------------------------------- one run

  lemma StartOk(w: World, o: Weather, k: Settings, rows: map<RowId, Row>)
    requires k.cursor.Some? ==> Covered(w, k.cursor.value, Keys(rows))
    ensures Inv(w, k, StartScan(w, o, rows))
  {
  }

  lemma {:induction false} LoopKeeps(w: World, o: Weather, k: Settings, s: Scan, n: nat)
    requires WorldOk(w) && Inv(w, k, s)
    ensures var e := Loop(w, o, k, s, n);
      && Inv(w, k, e.s)
      && (e.Exhausted? ==> e.s.it.start.None? && forall p :: !Pending(e.s.it, p))
    decreases NodesLeft(s.it), ItemsLeft(s.it)
  {
    var (found, it) := Next(o, s.it);
    NextOk(w, o, s.it);
    if found.None? {
      assert Noted(s.(it := it)) == Noted(s);
    } else if !o.stop(n) {
      TurnSooner(w, o, k, s);
      TurnKeeps(w, o, k, s);
      LoopKeeps(w, o, k, Turn(w, o, k, s, found.value, it), n + 1);
    }
  }

  lemma AdvanceKeeps(w: World, o: Weather, k: Settings, s: Scan)
    requires WorldOk(w) && Inv(w, k, s)
    ensures Inv(w, k, Advance(w, o, k, s))
  {
    if Next(o, s.it).0.Some? { TurnKeeps(w, o, k, s); }
  }

  /** What every turn keeps, any number of turns keep. */
  lemma {:induction false} TurnsKeep(w: World, o: Weather, k: Settings, s: Scan, n: nat, inv: Scan -> bool)
    requires inv(s) && forall x :: inv(x) ==> inv(Advance(w, o, k, x))
    ensures inv(Partial(w, o, k, s, n))
    decreases n
  {
    if n > 0 { TurnsKeep(w, o, k, Advance(w, o, k, s), n - 1, inv); }
  }

  ghost function InvOf(w: World, k: Settings): Scan -> bool { s => Inv(w, k, s) }

  lemma PartialKeeps(w: World, o: Weather, k: Settings, s: Scan, n: nat)
    requires WorldOk(w) && Inv(w, k, s)
    ensures Inv(w, k, Partial(w, o, k, s, n))
  {
    forall x | InvOf(w, k)(x) ensures InvOf(w, k)(Advance(w, o, k, x)) { AdvanceKeeps(w, o, k, x); }
    TurnsKeep(w, o, k, s, n, InvOf(w, k));
  }

  /** The rows hold every file of the root that passes the filter and that `statx` works on. */
  ghost predicate AllListed(w: World, rows: map<RowId, Row>) {
    forall p :: KeyAt(w, p).Some? ==> FindByKey(rows, KeyAt(w, p).value).Some?
  }

  lemma ListedByKey(w: World, rows: map<RowId, Row>)
    ensures AllListed(w, rows) <==> forall p :: KeyAt(w, p).Some? ==> KeyAt(w, p).value in Keys(rows)
  {
    forall p | KeyAt(w, p).Some? ensures FindByKey(rows, KeyAt(w, p).value).Some? <==> KeyAt(w, p).value in Keys(rows) {
      var key := KeyAt(w, p).value;
      if FindByKey(rows, key).None? { assert forall i :: i in rows ==> rows[i].key != key; }
    }
  }

  /** However a run ends, its cursors are covered; if it is complete, every file has its row. */
  lemma RunOk(w: World, o: Weather, k: Settings, rows: map<RowId, Row>)
    requires WorldOk(w) && (k.cursor.Some? ==> Covered(w, k.cursor.value, Keys(rows)))
    ensures var e := RunScan(w, o, k, rows);
      && CursorsOk(w, k, e.s)
      && (e.Ended? && e.complete ==> AllListed(w, e.s.rows))
  {
    var start := StartScan(w, o, rows);
    StartOk(w, o, k, rows);
    LoopKeeps(w, o, k, start, 0);
    match Loop(w, o, k, start, 0)
    case Stopped(s) => FlushKeeps(w, k, s);
    case Exhausted(s) =>
      CloseKeeps(w, k, s, 0);
      FlushKeeps(w, k, CloseTo(s, 0));
      ListedByKey(w, Flush(k, CloseTo(s, 0)).rows);
  }

  // ---------------------------------------------------------------- all runs

  /** A file the next run will leave out has its row. */
  ghost predicate NothingMissed(w: World, d: Disk) {
    d.cursor.Some? ==> Covered(w, d.cursor.value, Keys(d.rows))
  }

  /** Other writers between runs add rows and change rows; they do not delete any. */
  ghost predicate EventOk(d: Disk, e: Event) {
    e.Others? ==> Keys(d.rows) <= Keys(e.rows)
  }

  lemma PhaseBKeys(rows: map<RowId, Row>, root: int, now: Ts)
    ensures Keys(ScanPhaseB(rows, root, now)) == Keys(rows)
  {
    var after := ScanPhaseB(rows, root, now);
    forall x | x in Keys(rows) ensures x in Keys(after) {
      var i :| i in rows && rows[i].key == x;
      assert after[i].key == x;
    }
    forall x | x in Keys(after) ensures x in Keys(rows) {
      var i :| i in after && after[i].key == x;
      assert rows[i].key == x;
    }
  }

  lemma EventKeeps(w: World, d: Disk, e: Event)
    requires WorldOk(w) && NothingMissed(w, d) && EventOk(d, e)
    ensures NothingMissed(w, Happen(w, d, e))
    ensures e.Scans? && Completes(w, d, e) ==> AllListed(w, Happen(w, d, e).rows) && Happen(w, d, e).cursor.None?
  {
    match e
    case Scans(o, k, later) =>
      var k' := k.(cursor := d.cursor);
      RunOk(w, o, k', d.rows);
      var end := RunScan(w, o, k', d.rows);
      PhaseBKeys(end.s.rows, w.root, later);
      ListedByKey(w, end.s.rows);
      ListedByKey(w, ScanPhaseB(end.s.rows, w.root, later));
    case Killed(o, k, n, flushed) =>
      var k' := k.(cursor := d.cursor);
      StartOk(w, o, k', d.rows);
      PartialKeeps(w, o, k', StartScan(w, o, d.rows), n);
      FlushKeeps(w, k', Partial(w, o, k', StartScan(w, o, d.rows), n));
    case Others(_) =>
  }

  /** The run reports that it walked the whole root. */
  ghost predicate Completes(w: World, d: Disk, e: Event)
    requires e.Scans?
  {
    var end := RunScan(w, e.o, e.k.(cursor := d.cursor), d.rows);
    end.Ended? && end.complete
  }

  ghost predicate EventsOk(w: World, d: Disk, es: seq<Event>)
    decreases |es|
  {
    es == [] || (EventOk(d, es[0]) && EventsOk(w, Happen(w, d, es[0]), es[1..]))
  }

  /**
   * Over any history of runs that finish, are cut, are killed or meet unreadable directories,
   * no file is missed by the pruning of the next run.
   */
  lemma {:induction false} ResumeLosesNothing(w: World, d: Disk, es: seq<Event>)
    requires WorldOk(w) && NothingMissed(w, d) && EventsOk(w, d, es)
    ensures NothingMissed(w, History(w, d, es))
    decreases |es|
  {
    if es != [] {
      EventKeeps(w, d, es[0]);
      ResumeLosesNothing(w, Happen(w, d, es[0]), es[1..]);
    }
  }

  /** From an empty disk, a run that reports completion, after any such history, leaves a row for every file. */
  lemma CompleteMeansListed(w: World, es: seq<Event>, e: Event)
    requires WorldOk(w) && EventsOk(w, Disk(map[], None), es) && e.Scans?
    requires Completes(w, History(w, Disk(map[], None), es), e)
    ensures AllListed(w, Happen(w, History(w, Disk(map[], None), es), e).rows)
  {
    ResumeLosesNothing(w, Disk(map[], None), es);
    EventKeeps(w, History(w, Disk(map[], None), es), e);
  }

  // ---------------------------------------------------------------- nothing else is added

  ghost predicate FromTree(w: World, base: set<FileKey>, keys: set<FileKey>) {
    forall x :: x in keys ==> x in base || IsFileKey(w, x)
  }

  ghost predicate IsFileKey(w: World, x: FileKey) {
    exists p :: KeyAt(w, p) == Some(x)
  }

  lemma TurnAdds(w: World, o: Weather, k: Settings, s: Scan, base: set<FileKey>, found: Found, it': Iter)
    requires FromTree(w, base, Noted(s))
    requires found.Entry? ==> At(w.tree, found.path) == Some(found.node)
    ensures FromTree(w, base, Noted(Turn(w, o, k, s, found, it')))
  {
    if found.Entry? && found.node.File? {
      var s1 := CloseTo(s, |found.path|).(it := it');
      assert Noted(s1) == Noted(s);
      FileAdds(w, o, k, s1, found.path, found.node.len, found.node.seen, base);
    } else {
      assert Noted(Turn(w, o, k, s, found, it')) == Noted(s);
    }
  }

  lemma FileAdds(w: World, o: Weather, k: Settings, s: Scan, p: Path, len: nat, seen: Option<Identity>,
                 base: set<FileKey>)
    requires FromTree(w, base, Noted(s)) && At(w.tree, p) == Some(File(len, seen))
    ensures FromTree(w, base, Noted(SeeFile(w, o, k, s, p, len, seen)))
  {
    if seen.Some? && Passes(w, p, seen.value.size) {
      var s1 := s.(batch := s.batch + [NewScanRow(w, k, p, seen.value)]);
      BatchKeysConcat(s.batch, [NewScanRow(w, k, p, seen.value)]);
      assert KeyAt(w, p) == Some(seen.value.key);
      assert IsFileKey(w, seen.value.key);
      assert FromTree(w, base, Noted(s1));
      InsertKeys(s1.rows, s1.batch, k.now);
    }
  }

  /** A walk adds rows for files that pass the filter only. */
  lemma {:induction false} LoopAdds(w: World, o: Weather, k: Settings, s: Scan, n: nat, base: set<FileKey>)
    requires WorldOk(w) && Inv(w, k, s) && FromTree(w, base, Noted(s))
    ensures FromTree(w, base, Noted(Loop(w, o, k, s, n).s))
    decreases NodesLeft(s.it), ItemsLeft(s.it)
  {
    var (found, it) := Next(o, s.it);
    if found.None? {
      assert Noted(s.(it := it)) == Noted(s);
    } else if !o.stop(n) {
      TurnSooner(w, o, k, s);
      TurnKeeps(w, o, k, s);
      NextOk(w, o, s.it);
      TurnAdds(w, o, k, s, base, found.value, it);
      LoopAdds(w, o, k, Turn(w, o, k, s, found.value, it), n + 1, base);
    }
  }

  /** A run adds no row but those of files of the root that pass the filter. */
  lemma RunAddsOnlyFiles(w: World, o: Weather, k: Settings, rows: map<RowId, Row>)
    requires WorldOk(w) && (k.cursor.Some? ==> Covered(w, k.cursor.value, Keys(rows)))
    ensures FromTree(w, Keys(rows), Keys(RunScan(w, o, k, rows).s.rows))
  {
    var start := StartScan(w, o, rows);
    StartOk(w, o, k, rows);
    LoopAdds(w, o, k, start, 0, Keys(rows));
    LoopKeeps(w, o, k, start, 0);
    match Loop(w, o, k, start, 0)
    case Stopped(s) => FlushKeeps(w, k, s);
    case Exhausted(s) =>
      CloseKeeps(w, k, s, 0);
      assert Noted(CloseTo(s, 0)) == Noted(s);
      FlushKeeps(w, k, CloseTo(s, 0));
  }
}
