/**
 * What a resumed run skips: everything that was done before the stored cursor, and nothing of what the cursor's own
 * directory holds. No run stores a cursor that lies before the old one, unless it is a directory that holds it.
 */
module Skipping {
  import opened Wrappers
  import opened Model
  import opened PathText
  import opened Tree
  import opened Walk
  import opened Resume
  import opened Progress

  // ---------------------------------------------------------------- the frames behind a directory

  /** All that is left of the listing lies behind `x`. */
  ghost predicate Behind(x: Path, f: Frame) { ClearOf(x, f) || Prunable(x, f.dir) }

  ghost predicate AllBehind(x: Path, fs: seq<Frame>) {
    forall i :: 0 <= i < |fs| ==> Behind(x, fs[i])
  }

  lemma PartsHere(x: Path, dir: Path, name: Name)
    requires |dir| < |x| && dir <= x && Before(x[|dir|], name)
    ensures Prunable(x, dir + [name])
  {
    var q := dir + [name];
    assert x[..|dir|] == dir == q[..|dir|];
    PartsPrunable(x, q, |dir|);
  }

  lemma PartsAbove(x: Path, dir: Path, q: Path)
    requires Prunable(x, dir) && dir <= q
    ensures Prunable(x, q)
  {
    var i := PrunableParts(x, dir);
    assert q[..i] == dir[..i];
    PartsPrunable(x, q, i);
  }

  /** Whatever a frame behind `x` still lists comes after `x`. */
  lemma BehindLists(x: Path, f: Frame)
    requires Behind(x, f) && f.rest != [] && f.rest[0].Good?
    ensures Prunable(x, f.dir + [f.rest[0].name])
  {
    if ClearOf(x, f) { PartsHere(x, f.dir, f.rest[0].name); } else { PartsAbove(x, f.dir, f.dir + [f.rest[0].name]); }
  }

  lemma BehindTaken(x: Path, frames: seq<Frame>, left: seq<Frame>)
    requires AllBehind(x, frames) && TakesTop(frames, left)
    ensures AllBehind(x, left)
  {
    var n := |frames| - 1;
    assert Behind(x, frames[n]);
    forall i | 0 <= i < |left| ensures Behind(x, left[i]) {
      if i < n { assert left[i] == frames[i]; }
    }
  }

  /** A directory that is still clear of the frames has all of them behind it once the walk goes up to its level. */
  lemma ClearBecomesBehind(w: World, x: Path, frames: seq<Frame>)
    requires FramesOk(w, frames) && AllClear(x, frames) && frames != [] && |frames[|frames| - 1].dir| < |x|
    ensures AllBehind(x, frames)
  {
    var n := |frames| - 1;
    forall i | 0 <= i < |frames| ensures Behind(x, frames[i]) {
      if i < n { assert ClearOf(frames[n].dir, frames[i]); }
    }
  }

  /** The frames and the item that a started iterator takes next. */
  lemma NextTop(w: World, o: Weather, it: Iter) returns (frames: seq<Frame>, left: seq<Frame>)
    requires IterOk(w, it) && it.start.None? && Next(o, it).0.Some?
    ensures FramesOk(w, frames) && TakesTop(frames, left)
    ensures frames <= it.frames
    ensures var top, it' := frames[|frames| - 1], Next(o, it).1;
      match Next(o, it).0.value
      case Unreadable => it' == Iter(None, left)
      case Entry(q, node) =>
        top.rest[0].Good? && q == top.dir + [top.rest[0].name] && it' == Iter(None, Visit(o, left, q, node))
  {
    frames := DropEmpty(it.frames);
    left := Left(frames);
  }

  lemma BehindAfterEntry(o: Weather, x: Path, frames: seq<Frame>, left: seq<Frame>, q: Path, node: Node)
    requires AllBehind(x, frames) && TakesTop(frames, left)
    requires var top := frames[|frames| - 1]; top.rest[0].Good? && q == top.dir + [top.rest[0].name]
    ensures Prunable(x, q) && AllBehind(x, Visit(o, left, q, node))
  {
    BehindLists(x, frames[|frames| - 1]);
    BehindTaken(x, frames, left);
  }

  /** The walk left `x` before: whatever it finds comes after `x`. */
  lemma NextBehind(w: World, o: Weather, it: Iter, x: Path)
    requires IterOk(w, it) && it.start.None? && Next(o, it).0.Some? && AllBehind(x, it.frames)
    ensures AllBehind(x, Next(o, it).1.frames)
    ensures Next(o, it).0.value.Entry? ==> Prunable(x, Next(o, it).0.value.path)
  {
    var frames, left := NextTop(w, o, it);
    forall i | 0 <= i < |frames| ensures Behind(x, frames[i]) { assert frames[i] == it.frames[i]; }
    match Next(o, it).0.value
    case Unreadable => BehindTaken(x, frames, left);
    case Entry(q, node) => BehindAfterEntry(o, x, frames, left, q, node);
  }

  /** The walk is in `x`: what it finds lies below `x`, or it leaves `x` now. */
  lemma NextInside(w: World, o: Weather, it: Iter, x: Path)
    requires IterOk(w, it) && it.start.None? && AllClear(x, it.frames)
    requires Next(o, it).0.Some? && Next(o, it).0.value.Entry?
    ensures var q, fs := Next(o, it).0.value.path, Next(o, it).1.frames;
      if |q| > |x| then x <= q && AllClear(x, fs) else Prunable(x, q) && AllBehind(x, fs)
  {
    var frames, left := NextTop(w, o, it);
    var q, node := Next(o, it).0.value.path, Next(o, it).0.value.node;
    forall i | 0 <= i < |frames| ensures x <= frames[i].dir || ClearOf(x, frames[i]) {
      assert frames[i] == it.frames[i];
    }
    if |q| > |x| {
      NextClear(w, o, it, x);
    } else {
      ClearBecomesBehind(w, x, frames);
      BehindAfterEntry(o, x, frames, left, q, node);
    }
  }

  // ---------------------------------------------------------------- the order of a history

  /** Place `y` is in the directory of place `a`, or comes after it once the walk has left it. */
  ghost predicate InOrAfter(h: seq<Found>, a: nat, y: nat)
    requires a < y < |h| && h[a].Entry? && h[y].Entry?
  {
    if DeeperUpTo(h, a, y + 1) then h[a].path <= h[y].path else Prunable(h[a].path, h[y].path)
  }

  ghost predicate InOrder(h: seq<Found>, c: Option<Path>) {
    forall a: nat, y: nat :: a < y < |h| && Opened(h, c, a) && h[y].Entry? ==> InOrAfter(h, a, y)
  }

  /** Where the frames are with respect to a directory of the history. */
  ghost predicate Placed(h: seq<Found>, c: Option<Path>, a: nat, fs: seq<Frame>)
    requires Opened(h, c, a)
  {
    if StillOpen(h, c, a) then AllClear(h[a].path, fs) else AllBehind(h[a].path, fs)
  }

  ghost predicate AllPlaced(h: seq<Found>, c: Option<Path>, fs: seq<Frame>) {
    forall a: nat :: Opened(h, c, a) ==> Placed(h, c, a, fs)
  }

  ghost predicate WalksInOrder(w: World, h: seq<Found>, c: Option<Path>, it: Iter) {
    IterOk(w, it) && (h != [] ==> it.start.None?) && InOrder(h, c) && AllPlaced(h, c, it.frames)
  }

  lemma PlacedStep(w: World, o: Weather, h: seq<Found>, c: Option<Path>, it: Iter, a: nat, found: Found)
    requires IterOk(w, it) && it.start.None? && Next(o, it).0 == Some(found)
    requires Opened(h, c, a) && Placed(h, c, a, it.frames)
    ensures var h' := h + [found];
      Opened(h', c, a) && Placed(h', c, a, Next(o, it).1.frames) && (found.Entry? ==> InOrAfter(h', a, |h|))
  {
    var h', x := h + [found], h[a].path;
    assert forall j :: 0 <= j < |h| ==> h'[j] == h[j];
    assert h'[|h|] == found;
    if !StillOpen(h, c, a) {
      NextBehind(w, o, it, x);
    } else if found.Entry? {
      NextInside(w, o, it, x);
    } else {
      NextClear(w, o, it, x);
    }
  }

  /** The earlier places keep their order. */
  lemma InOrAfterMore(h: seq<Found>, found: Found, a: nat, y: nat)
    requires a < y < |h| && h[a].Entry? && h[y].Entry? && InOrAfter(h, a, y)
    ensures InOrAfter(h + [found], a, y)
  {
    var h' := h + [found];
    assert forall j :: 0 <= j < |h| ==> h'[j] == h[j];
    assert DeeperUpTo(h', a, y + 1) <==> DeeperUpTo(h, a, y + 1);
  }

  lemma OpenedBefore(h: seq<Found>, found: Found, c: Option<Path>, a: nat)
    requires a < |h|
    ensures Opened(h + [found], c, a) <==> Opened(h, c, a)
  {
  }

  lemma NextInOrder(w: World, o: Weather, h: seq<Found>, c: Option<Path>, it: Iter, found: Found)
    requires TreeOk(w.tree) && WalksInOrder(w, h, c, it) && Next(o, it).0 == Some(found)
    ensures WalksInOrder(w, h + [found], c, Next(o, it).1)
  {
    var h', fs := h + [found], Next(o, it).1.frames;
    NextOk(w, o, it);
    forall a: nat | Opened(h', c, a) ensures Placed(h', c, a, fs) {
      if a < |h| {
        OpenedBefore(h, found, c, a);
        PlacedStep(w, o, h, c, it, a, found);
      }
    }
    forall a: nat, y: nat | a < y < |h'| && Opened(h', c, a) && h'[y].Entry? ensures InOrAfter(h', a, y) {
      OpenedBefore(h, found, c, a);
      if y < |h| { InOrAfterMore(h, found, a, y); } else { PlacedStep(w, o, h, c, it, a, found); }
    }
  }

  lemma FewerFramesInOrder(w: World, h: seq<Found>, c: Option<Path>, it: Iter)
    requires WalksInOrder(w, h, c, it) && h != []
    ensures WalksInOrder(w, h, c, SkipDir(it))
  {
  }

  // ---------------------------------------------------------------- a resumed run skips what lies before its cursor

  /** No directory being listed lies before the cursor. */
  ghost predicate NonePruned(c: Option<Path>, fs: seq<Frame>) {
    forall i :: 0 <= i < |fs| ==> !Pruned(c, fs[i].dir)
  }

  ghost predicate TakesAhead(h: seq<Found>, c: Path) {
    forall y :: 0 <= y < |h| && h[y].Entry? ==> !LeftOut(h[y].path, c)
  }

  ghost predicate WalksAhead(h: seq<Found>, c: Option<Path>, fs: seq<Frame>) {
    NonePruned(c, fs) && (c.Some? ==> TakesAhead(h, c.value))
  }

  /** What the turn makes of the iterator: a directory that the cursor prunes is left out again. */
  lemma TurnFrames(w: World, o: Weather, k: Settings, s: Scan, found: Found, it: Iter)
    ensures Turn(w, o, k, s, found, it).it ==
            if found.Entry? && found.node.Dir? && Pruned(k.cursor, found.path) then SkipDir(it) else it
  {
    if found.Entry? { TurnSees(w, o, k, s, found.path, found.node, it); }
  }

  lemma RootNotPruned(c: Option<Path>)
    ensures !Pruned(c, [])
  {
  }

  /** The frames after a step, but for the directory it may have opened. */
  lemma NextAhead(w: World, o: Weather, c: Option<Path>, it: Iter, found: Found)
    requires IterOk(w, it) && Next(o, it).0 == Some(found) && NonePruned(c, it.frames)
    ensures found.Entry? && c.Some? ==> !LeftOut(found.path, c.value)
    ensures var fs := Next(o, it).1.frames;
      if found.Entry? && found.node.Dir? && Pruned(c, found.path) then fs != [] && NonePruned(c, fs[..|fs| - 1])
      else NonePruned(c, fs)
  {
    RootNotPruned(c);
    if it.start.None? {
      var frames, left := NextTop(w, o, it);
      var n := |frames| - 1;
      assert frames[n] == it.frames[n];
      forall i | 0 <= i < |left| ensures !Pruned(c, left[i].dir) { assert left[i].dir == it.frames[i].dir; }
      if found.Entry? {
        assert found.path[..|found.path| - 1] == frames[n].dir;
        VisitAhead(o, c, left, found.path, found.node);
      }
    }
  }

  lemma VisitAhead(o: Weather, c: Option<Path>, left: seq<Frame>, q: Path, node: Node)
    requires NonePruned(c, left)
    ensures var fs := Visit(o, left, q, node);
      if node.Dir? && Pruned(c, q) then fs != [] && NonePruned(c, fs[..|fs| - 1]) else NonePruned(c, fs)
  {
  }

  lemma TurnAhead(w: World, o: Weather, k: Settings, s: Scan, found: Found, h: seq<Found>)
    requires IterOk(w, s.it) && Next(o, s.it).0 == Some(found) && WalksAhead(h, k.cursor, s.it.frames)
    ensures WalksAhead(h + [found], k.cursor, Turn(w, o, k, s, found, Next(o, s.it).1).it.frames)
  {
    NextAhead(w, o, k.cursor, s.it, found);
    TurnFrames(w, o, k, s, found, Next(o, s.it).1);
  }

  lemma TurnInOrder(w: World, o: Weather, k: Settings, s: Scan, found: Found, h: seq<Found>)
    requires TreeOk(w.tree) && WalksInOrder(w, h, k.cursor, s.it) && Next(o, s.it).0 == Some(found)
    ensures WalksInOrder(w, h + [found], k.cursor, Turn(w, o, k, s, found, Next(o, s.it).1).it)
  {
    var it' := Next(o, s.it).1;
    NextInOrder(w, o, h, k.cursor, s.it, found);
    TurnFrames(w, o, k, s, found, it');
    FewerFramesInOrder(w, h + [found], k.cursor, it');
  }

  lemma {:induction false} TakenInOrder(w: World, o: Weather, k: Settings, s: Scan, n: nat, h: seq<Found>)
    requires TreeOk(w.tree) && WalksInOrder(w, h, k.cursor, s.it) && WalksAhead(h, k.cursor, s.it.frames)
    ensures var all := h + Taken(w, o, k, s, n);
      InOrder(all, k.cursor) && (k.cursor.Some? ==> TakesAhead(all, k.cursor.value))
    decreases NodesLeft(s.it), ItemsLeft(s.it)
  {
    var found := Next(o, s.it).0;
    if found.None? || o.stop(n) {
      LoopEnds(w, o, k, s, n);
      assert h + [] == h;
    } else {
      var s' := Turn(w, o, k, s, found.value, Next(o, s.it).1);
      LoopTurns(w, o, k, s, n, found.value, s');
      TurnInOrder(w, o, k, s, found.value, h);
      TurnAhead(w, o, k, s, found.value, h);
      TakenInOrder(w, o, k, s', n + 1, h + [found.value]);
      MoreHistory(h, found.value, Taken(w, o, k, s', n + 1));
    }
  }

  lemma HistoryInOrder(w: World, d: Disk, o: Weather, k: Settings)
    requires TreeOk(w.tree)
    ensures InOrder(RunTakes(w, d, o, k), d.cursor)
    ensures d.cursor.Some? ==> TakesAhead(RunTakes(w, d, o, k), d.cursor.value)
  {
    var h := RunTakes(w, d, o, k);
    TakenInOrder(w, o, k.(cursor := d.cursor), StartScan(w, o, d.rows), 0, []);
    assert [] + h == h;
  }

  /** A run resumed at a cursor takes no file that the cursor makes it leave out. */
  lemma ResumedRunSkips(w: World, d: Disk, o: Weather, k: Settings, y: nat)
    requires TreeOk(w.tree) && d.cursor.Some?
    requires y < |RunTakes(w, d, o, k)| && RunTakes(w, d, o, k)[y].Entry?
    ensures !LeftOut(RunTakes(w, d, o, k)[y].path, d.cursor.value)
  {
    HistoryInOrder(w, d, o, k);
  }

  // ---------------------------------------------------------------- all that is done lies before the last

  /** Of two directories done, the one done last holds the other or comes after it. */
  lemma LastDoneIsAfter(h: seq<Found>, c: Option<Path>, a: nat, b: nat, x: nat, y: nat)
    requires InOrder(h, c) && LastDone(h, c, a, b) && Done(h, c, x, y)
    ensures h[a].path <= h[x].path || Prunable(h[x].path, h[a].path)
  {
    if a < x {
      LastHolds(h, c, a, b, x, y);
    } else if x < a {
      assert InOrAfter(h, x, a);
    }
  }

  lemma LastHolds(h: seq<Found>, c: Option<Path>, a: nat, b: nat, x: nat, y: nat)
    requires InOrder(h, c) && LastDone(h, c, a, b) && Done(h, c, x, y) && a < x
    ensures h[a].path <= h[x].path
  {
    assert x < b;
    assert InOrAfter(h, a, x);
    assert DeeperUpTo(h, a, x + 1);
  }

  lemma LastDoneUnique(h: seq<Found>, c: Option<Path>, d: Path, e: Path)
    requires InOrder(h, c) && IsLastDone(h, c, d) && IsLastDone(h, c, e)
    ensures d == e
  {
    var a: nat, b: nat :| LastDone(h, c, a, b) && h[a].path == d;
    var x: nat, y: nat :| LastDone(h, c, x, y) && h[x].path == e;
    if a < x { LastHolds(h, c, a, b, x, y); } else if x < a { LastHolds(h, c, x, y, a, b); }
  }

  // ---------------------------------------------------------------- the run after a cut one

  /** The run neither took in the whole root nor found that it is another one. */
  ghost predicate CutShort(w: World, d: Disk, o: Weather, k: Settings) {
    var h := RunTakes(w, d, o, k);
    !RanOut(w, d, o, k) || (o.rootUnchanged && !AllRead(h, |h|))
  }

  /** A directory that a cut run got done holds what it stores as the cursor, lies in it, or comes before it. */
  lemma StoredIsAfter(w: World, d: Disk, o: Weather, k: Settings, later: Ts, x: nat, y: nat)
    requires TreeOk(w.tree) && CutShort(w, d, o, k) && Done(RunTakes(w, d, o, k), d.cursor, x, y)
    ensures var c', dir := Happen(w, d, Scans(o, k, later)).cursor, RunTakes(w, d, o, k)[x].path;
      c'.Some? && (c'.value <= dir || Prunable(dir, c'.value))
  {
    var h := RunTakes(w, d, o, k);
    RunStoresLastDone(w, d, o, k, later);
    HistoryInOrder(w, d, o, k);
    var c' := Happen(w, d, Scans(o, k, later)).cursor;
    var a: nat, b: nat :| LastDone(h, d.cursor, a, b) && h[a].path == c'.value;
    LastDoneIsAfter(h, d.cursor, a, b, x, y);
  }

  ghost predicate InsideOf(p: Path, dir: Path) { dir <= p && |dir| < |p| }

  /**
   * The next run leaves out everything in a directory that the cut run got done, if and only if the directory is not
   * the stored cursor itself or one inside it.
   */
  lemma DoneIsLeftOutIff(w: World, d: Disk, o: Weather, k: Settings, later: Ts, x: nat, y: nat)
    requires TreeOk(w.tree) && CutShort(w, d, o, k) && Done(RunTakes(w, d, o, k), d.cursor, x, y)
    ensures var c', dir := Happen(w, d, Scans(o, k, later)).cursor, RunTakes(w, d, o, k)[x].path;
      c'.Some? && ((forall p :: InsideOf(p, dir) ==> LeftOut(p, c'.value)) <==> !(c'.value <= dir))
  {
    StoredIsAfter(w, d, o, k, later, x, y);
    var c', dir := Happen(w, d, Scans(o, k, later)).cursor.value, RunTakes(w, d, o, k)[x].path;
    if c' <= dir {
      BelowNotLeftOut(dir + [""], c');
      assert InsideOf(dir + [""], dir);
    } else {
      forall p | InsideOf(p, dir) ensures LeftOut(p, c') { PrunableBelow(dir, p[..|p| - 1], c'); }
    }
  }

  /** So the next run, whatever it meets and whatever the rows are by then, takes nothing from such a directory. */
  lemma NextRunSkipsDone(w: World, d: Disk, o: Weather, k: Settings, later: Ts, x: nat, y: nat,
                         next: Disk, o2: Weather, k2: Settings, z: nat)
    requires TreeOk(w.tree) && CutShort(w, d, o, k) && Done(RunTakes(w, d, o, k), d.cursor, x, y)
    requires next.cursor == Happen(w, d, Scans(o, k, later)).cursor
    requires next.cursor.Some? ==> !(next.cursor.value <= RunTakes(w, d, o, k)[x].path)
    requires z < |RunTakes(w, next, o2, k2)| && RunTakes(w, next, o2, k2)[z].Entry?
    ensures !InsideOf(RunTakes(w, next, o2, k2)[z].path, RunTakes(w, d, o, k)[x].path)
  {
    DoneIsLeftOutIff(w, d, o, k, later, x, y);
    ResumedRunSkips(w, next, o2, k2, z);
  }

  // ---------------------------------------------------------------- where the cursor moves

  lemma {:induction false} PathsRelate(a: Path, b: Path)
    ensures a <= b || b <= a || Prunable(a, b) || Prunable(b, a)
  {
    if a != [] && b != [] {
      BeforeTotal(a[0], b[0]);
      if a[0] == b[0] {
        PathsRelate(a[1..], b[1..]);
        assert a == [a[0]] + a[1..] && b == [b[0]] + b[1..];
      } else if Before(a[0], b[0]) {
        PartsPrunable(a, b, 0);
      } else {
        PartsPrunable(b, a, 0);
      }
    }
  }

  lemma PrunedByLater(q: Path, c: Path, c': Path)
    requires Prunable(q, c) && (c <= c' || Prunable(c, c'))
    ensures Prunable(q, c')
  {
    var i := PrunableParts(q, c);
    if c <= c' {
      assert c'[..i] == c[..i];
      PartsPrunable(q, c', i);
    } else {
      var j := PrunableParts(c, c');
      PartsChain(q, c, c', i, j);
    }
  }

  lemma PartsChain(q: Path, c: Path, c': Path, i: nat, j: nat)
    requires PartsAt(q, c, i) && PartsAt(c, c', j)
    ensures Prunable(q, c')
  {
    if i < j {
      assert c[i] == c[..j][i] == c'[..j][i] && c[..i] == c[..j][..i] == c'[..j][..i] == c'[..i];
      PartsPrunable(q, c', i);
    } else {
      assert q[..j] == q[..i][..j] == c[..i][..j] == c[..j];
      if i == j { BeforeTransitive(q[i], c[i], c'[i]); } else { assert q[j] == q[..i][j] == c[..i][j]; }
      PartsPrunable(q, c', j);
    }
  }

  /** The names of a path are not empty. */
  ghost predicate Named(p: Path) { forall i :: 0 <= i < |p| ==> p[i] != "" }

  /** A cursor that the old one does not prune leaves out all that the old one did, unless it holds the old one. */
  lemma LeavesOutMoreIff(c: Path, c': Path)
    requires Named(c) && !Prunable(c', c)
    ensures (forall p :: LeftOut(p, c) ==> LeftOut(p, c')) <==> !(c' < c)
  {
    if c' < c {
      var p := c' + ["", ""];
      assert p[..|p| - 1] == c' + [""] && c[..|c'|] == c';
      PartsPrunable(c' + [""], c, |c'|);
      BelowNotLeftOut(p, c');
      assert LeftOut(p, c) && !LeftOut(p, c');
    } else {
      PathsRelate(c, c');
      forall p | LeftOut(p, c) ensures LeftOut(p, c') {
        if c' != c { PrunedByLater(p[..|p| - 1], c, c'); }
      }
    }
  }

  lemma NotBeforeItself(c: Path)
    ensures !Prunable(c, c)
  {
  }

  lemma {:induction false} AboveIsBefore(a: Path, b: Path)
    requires a <= b && a != b
    ensures PathBefore(a, b)
  {
    if a != [] { AboveIsBefore(a[1..], b[1..]); }
  }

  lemma {:induction false} BeforeIrreflexivePath(a: Path)
    ensures !PathBefore(a, a)
  {
    if a != [] {
      BeforeIrreflexive(a[0]);
      BeforeIrreflexivePath(a[1..]);
    }
  }

  /**
   * A run never stores a cursor that the one it was resumed at would prune. In the order of paths the cursor goes
   * back, and the next run again walks what this one left out, if and only if the directory that the run got done
   * last holds the old cursor.
   */
  lemma CursorGoesBackIff(w: World, d: Disk, o: Weather, k: Settings, later: Ts)
    requires TreeOk(w.tree) && CutShort(w, d, o, k) && d.cursor.Some? && Named(d.cursor.value)
    ensures Happen(w, d, Scans(o, k, later)).cursor.Some?
    ensures var c, c', h := d.cursor.value, Happen(w, d, Scans(o, k, later)).cursor.value, RunTakes(w, d, o, k);
      && !Prunable(c', c)
      && (PathBefore(c', c) <==> c' < c)
      && ((forall p :: LeftOut(p, c) ==> LeftOut(p, c')) <==> !(c' < c))
      && (c' < c <==> exists e :: e < c && IsLastDone(h, Some(c), e))
  {
    RunStoresLastDone(w, d, o, k, later);
    var c, c', h := d.cursor.value, Happen(w, d, Scans(o, k, later)).cursor.value, RunTakes(w, d, o, k);
    HistoryInOrder(w, d, o, k);
    NotBeforeItself(c);
    forall e | IsLastDone(h, d.cursor, e) ensures c' == e {
      var a: nat, b: nat :| LastDone(h, d.cursor, a, b) && h[a].path == e;
      assert Done(h, d.cursor, a, b);
      LastDoneUnique(h, d.cursor, c', e);
    }
    if c' != c {
      var a: nat, b: nat :| LastDone(h, d.cursor, a, b) && h[a].path == c';
      if c' < c { AboveIsBefore(c', c); }
    } else {
      BeforeIrreflexivePath(c);
    }
    LeavesOutMoreIff(c, c');
  }

  // ---------------------------------------------------------------- a cursor that goes back

  /** `a/b` is an empty directory, and two more entries follow `a`. */
  const INNER := Dir([Kid("b", Dir([])), Kid("c", Other)])
  const OUTER := Dir([Kid("a", INNER), Kid("x", Other), Kid("y", Other)])
  const SMALL := World(1, OUTER, 0, _ => true, _ => false)

  /** Everything is readable, and the run is told to stop before its turn `n`. */
  function CalmUntil(n: nat): Weather {
    Weather(true, _ => 0, (_, _) => true, _ => true, t => t >= n, true)
  }

  /** The state after some turns: the frames, the open directories, and the directory left last. */
  function After(frames: seq<Frame>, open: seq<OpenDir>, waiting: Option<Path>): Scan {
    Scan(Iter(None, frames), open, false, 0, [], waiting, None, map[])
  }

  const REST_OF_ROOT := Frame([], [Good("x", Other), Good("y", Other)])
  const S1 := After([Frame([], [Good("a", INNER), Good("x", Other), Good("y", Other)])], [OpenDir([], false)], None)
  const S2 := After([REST_OF_ROOT, Frame(["a"], [Good("b", Dir([])), Good("c", Other)])],
                    [OpenDir([], false), OpenDir(["a"], false)], None)
  const S3 := After([REST_OF_ROOT, Frame(["a"], [Good("c", Other)]), Frame(["a", "b"], [])],
                    [OpenDir([], false), OpenDir(["a"], false), OpenDir(["a", "b"], false)], None)
  const S4 := After([REST_OF_ROOT, Frame(["a"], [])], [OpenDir([], false), OpenDir(["a"], false)], Some(["a", "b"]))
  const S5 := After([Frame([], [Good("y", Other)])], [OpenDir([], false)], Some(["a"]))

  /** The turn leads from `s` to `s'`. */
  ghost predicate Turns(o: Weather, c: Option<Path>, s: Scan, s': Scan) {
    var (found, it) := Next(o, s.it);
    found.Some? && Turn(SMALL, o, Settings(0, 0, 1, c), s, found.value, it) == s'
  }

  lemma TurnsTo(o: Weather, c: Option<Path>, s: Scan, s': Scan, n: nat)
    requires Turns(o, c, s, s') && !o.stop(n)
    ensures Loop(SMALL, o, Settings(0, 0, 1, c), s, n) == Loop(SMALL, o, Settings(0, 0, 1, c), s', n + 1)
  {
    var found := Next(o, s.it).0;
    LoopTurns(SMALL, o, Settings(0, 0, 1, c), s, n, found.value, s');
  }

  lemma {:induction false} CalmEntries(o: Weather, dir: Path, kids: seq<Kid>)
    requires o.errors(dir) == 0
    ensures |Entries(o, dir, kids)| == |kids|
    ensures forall i :: 0 <= i < |kids| ==> Entries(o, dir, kids)[i] == Good(kids[i].name, kids[i].node)
  {
    if kids != [] { CalmEntries(o, dir, kids[1..]); }
  }

  lemma CalmListing(o: Weather, dir: Path, kids: seq<Kid>, items: seq<Item>)
    requires o.errors(dir) == 0 && |items| == |kids|
    requires forall i :: 0 <= i < |kids| ==> items[i] == Good(kids[i].name, kids[i].node)
    ensures Listing(o, dir, kids) == items
  {
    CalmEntries(o, dir, kids);
  }

  lemma FirstTurn(n: nat, c: Option<Path>)
    requires c == None || c == Some(["a", "b"])
    ensures Turns(CalmUntil(n), c, StartScan(SMALL, CalmUntil(n), map[]), S1)
  {
    RootNotPruned(c);
    CalmListing(CalmUntil(n), [], OUTER.kids, S1.it.frames[0].rest);
  }

  lemma SecondTurn(n: nat, c: Option<Path>)
    requires c == None || c == Some(["a", "b"])
    ensures Turns(CalmUntil(n), c, S1, S2)
  {
    CalmListing(CalmUntil(n), ["a"], INNER.kids, S2.it.frames[1].rest);
    assert [] + ["a"] == ["a"] && ["a"] <= ["a", "b"];
    assert S1.it.frames[0].rest[1..] == REST_OF_ROOT.rest;
    assert DropEmpty(S1.it.frames) == S1.it.frames;
    assert Left(S1.it.frames) == [REST_OF_ROOT];
    assert [REST_OF_ROOT] + [S2.it.frames[1]] == S2.it.frames;
    assert Next(CalmUntil(n), S1.it) == (Some(Entry(["a"], INNER)), S2.it);
  }

  lemma ThirdTurn(n: nat, c: Option<Path>)
    requires c == None || c == Some(["a", "b"])
    ensures Turns(CalmUntil(n), c, S2, S3)
  {
    CalmListing(CalmUntil(n), ["a", "b"], [], []);
    assert ["a"] + ["b"] == ["a", "b"];
    assert S2.it.frames[1].rest[1..] == [Good("c", Other)];
    assert DropEmpty(S2.it.frames) == S2.it.frames;
    assert Left(S2.it.frames) == [REST_OF_ROOT, S3.it.frames[1]];
    assert [REST_OF_ROOT, S3.it.frames[1]] + [Frame(["a", "b"], [])] == S3.it.frames;
    assert Next(CalmUntil(n), S2.it) == (Some(Entry(["a", "b"], Dir([]))), S3.it);
    assert CloseTo(S2, 2) == S2;
  }

  lemma FourthTurn(n: nat, c: Option<Path>)
    ensures Turns(CalmUntil(n), c, S3, S4)
  {
    var fs := S3.it.frames;
    assert DropEmpty(fs) == fs[..2];
    assert ["a"] + ["c"] == ["a", "c"];
    assert fs[1].rest[1..] == [];
    assert Left(fs[..2]) == S4.it.frames;
    assert Next(CalmUntil(n), S3.it) == (Some(Entry(["a", "c"], Other)), S4.it);
    assert CloseTo(S3, 2) == S3.(open := S4.open, waiting := S4.waiting);
  }

  lemma FifthTurn(n: nat, c: Option<Path>)
    ensures Turns(CalmUntil(n), c, S4, S5)
  {
    var fs := S4.it.frames;
    assert DropEmpty(fs) == fs[..1];
    assert [] + ["x"] == ["x"];
    assert fs[0].rest[1..] == [Good("y", Other)];
    assert Left(fs[..1]) == S5.it.frames;
    assert Next(CalmUntil(n), S4.it) == (Some(Entry(["x"], Other)), S5.it);
    assert CloseTo(S4, 1) == S4.(open := S5.open, waiting := S5.waiting);
  }

  /** The loop over the small tree up to its fourth or fifth turn. */
  lemma SmallLoop(n: nat, c: Option<Path>)
    requires (n == 4 || n == 5) && (c == None || c == Some(["a", "b"]))
    ensures Loop(SMALL, CalmUntil(n), Settings(0, 0, 1, c), StartScan(SMALL, CalmUntil(n), map[]), 0) ==
            Stopped(if n == 4 then S4 else S5)
  {
    var o := CalmUntil(n);
    var start := StartScan(SMALL, o, map[]);
    FirstTurn(n, c);
    TurnsTo(o, c, start, S1, 0);
    SecondTurn(n, c);
    TurnsTo(o, c, S1, S2, 1);
    ThirdTurn(n, c);
    TurnsTo(o, c, S2, S3, 2);
    FourthTurn(n, c);
    TurnsTo(o, c, S3, S4, 3);
    FifthTurn(n, c);
    if n == 4 {
      LoopEnds(SMALL, o, Settings(0, 0, 1, c), S4, 4);
    } else {
      TurnsTo(o, c, S4, S5, 4);
      assert DropEmpty(S5.it.frames) == S5.it.frames;
      LoopEnds(SMALL, o, Settings(0, 0, 1, c), S5, 5);
    }
  }

  lemma StoppedStores(w: World, d: Disk, o: Weather, k: Settings, later: Ts, s: Scan)
    requires Loop(w, o, k.(cursor := d.cursor), StartScan(w, o, d.rows), 0) == Stopped(s)
    requires s.batch == [] && s.waiting.Some?
    ensures Happen(w, d, Scans(o, k, later)) == Disk(s.rows, s.waiting)
  {
  }

  lemma SmallRun(n: nat, c: Option<Path>)
    requires (n == 4 || n == 5) && (c == None || c == Some(["a", "b"]))
    ensures Happen(SMALL, Disk(map[], c), Scans(CalmUntil(n), Settings(0, 0, 1, None), 0)) ==
            Disk(map[], Some(if n == 4 then ["a", "b"] else ["a"]))
  {
    SmallLoop(n, c);
    StoppedStores(SMALL, Disk(map[], c), CalmUntil(n), Settings(0, 0, 1, None), 0, if n == 4 then S4 else S5);
  }

  lemma LeftOutBefore()
    ensures LeftOut(["a", "aa", "f"], ["a", "b"]) && !LeftOut(["a", "aa", "f"], ["a"])
  {
    var p := ["a", "aa", "f"];
    assert p[..2] == ["a", "aa"];
    assert ["a", "aa"][..1] == ["a", "b"][..1];
    assert "aa"[0] == 'a' && "b"[0] == 'b';
    PartsPrunable(["a", "aa"], ["a", "b"], 1);
    BelowNotLeftOut(p, ["a"]);
  }

  /**
   * From nothing, a run cut behind `a/b` and the next one, cut behind `a`: the cursor goes back from `a/b` to `a`, and
   * a file below `a/aa`, which the second run left out, is walked again by the third.
   */
  lemma CursorCanGoBack()
    ensures var d1 := Happen(SMALL, Disk(map[], None), Scans(CalmUntil(4), Settings(0, 0, 1, None), 0));
      var d2 := Happen(SMALL, d1, Scans(CalmUntil(5), Settings(0, 0, 1, None), 0));
      && d1.cursor == Some(["a", "b"]) && d2.cursor == Some(["a"]) && PathBefore(["a"], ["a", "b"])
      && LeftOut(["a", "aa", "f"], ["a", "b"]) && !LeftOut(["a", "aa", "f"], ["a"])
  {
    SmallRun(4, None);
    SmallRun(5, Some(["a", "b"]));
    LeftOutBefore();
    AboveIsBefore(["a"], ["a", "b"]);
  }
}
