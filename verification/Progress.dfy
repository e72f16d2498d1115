/**
 * What a run of the scan stores so that the next one need not start over: after a cut run the cursor is the directory
 * that was closed last, and a run resumed there skips everything that was closed before it.
 */
module Progress {
  import opened Wrappers
  import opened Model
  import opened Tree
  import opened Walk
  import opened Resume

  // ---------------------------------------------------------------- what a run takes, and what that closes

  /** What the loop takes from the iterator until it is told to stop or nothing is left. */
  ghost function Taken(w: World, o: Weather, k: Settings, s: Scan, n: nat): seq<Found>
    decreases NodesLeft(s.it), ItemsLeft(s.it)
  {
    var (found, it) := Next(o, s.it);
    if found.None? || o.stop(n) then []
    else
      TurnSooner(w, o, k, s);
      [found.value] + Taken(w, o, k, Turn(w, o, k, s, found.value, it), n + 1)
  }

  /** Place `a` of the history is a directory that the cursor `c` does not make the run skip. */
  ghost predicate Opened(h: seq<Found>, c: Option<Path>, a: nat) {
    a < |h| && h[a].Entry? && h[a].node.Dir? && !(c.Some? && Prunable(h[a].path, c.value))
  }

  /** Up to place `n` everything after `a` lies deeper than the directory at `a`. */
  ghost predicate DeeperUpTo(h: seq<Found>, a: nat, n: nat)
    requires a < n <= |h| && h[a].Entry?
  {
    forall x :: a < x < n && h[x].Entry? ==> |h[x].path| > |h[a].path|
  }

  /** The walk has left the directory at `a` when it takes place `b`. */
  ghost predicate ClosedBy(h: seq<Found>, a: nat, b: nat) {
    a < b < |h| && h[a].Entry? && h[b].Entry? && |h[b].path| <= |h[a].path| && DeeperUpTo(h, a, b)
  }

  ghost predicate AllRead(h: seq<Found>, n: nat)
    requires n <= |h|
  {
    forall x :: 0 <= x < n ==> h[x].Entry?
  }

  /** A directory below the root was walked to its end, and nothing was unreadable until then. */
  ghost predicate Done(h: seq<Found>, c: Option<Path>, a: nat, b: nat) {
    Opened(h, c, a) && ClosedBy(h, a, b) && h[a].path != [] && AllRead(h, b)
  }

  /** Of the directories done it was left last: later than the others, or as the one that holds them. */
  ghost predicate LastDone(h: seq<Found>, c: Option<Path>, a: nat, b: nat) {
    && Done(h, c, a, b)
    && forall x: nat, y: nat :: Done(h, c, x, y) ==> y < b || (y == b && |h[a].path| <= |h[x].path|)
  }

  ghost predicate NothingDone(h: seq<Found>, c: Option<Path>) {
    forall a: nat, b: nat :: !Done(h, c, a, b)
  }

  ghost predicate IsLastDone(h: seq<Found>, c: Option<Path>, d: Path) {
    exists a: nat, b: nat :: LastDone(h, c, a, b) && h[a].path == d
  }

  // ---------------------------------------------------------------- the books of a run

  ghost predicate StillOpen(h: seq<Found>, c: Option<Path>, a: nat) {
    Opened(h, c, a) && DeeperUpTo(h, a, |h|)
  }

  ghost predicate IsOpen(h: seq<Found>, c: Option<Path>, d: Path) {
    exists a: nat :: StillOpen(h, c, a) && h[a].path == d
  }

  ghost predicate Stacked(open: seq<OpenDir>, d: Path) {
    exists i :: 0 <= i < |open| && open[i].rel == d
  }

  ghost predicate Nested(open: seq<OpenDir>) {
    forall i, j :: 0 <= i < j < |open| ==> |open[i].rel| < |open[j].rel|
  }

  ghost predicate AllMarked(open: seq<OpenDir>, dirty: bool) {
    forall i :: 0 <= i < |open| ==> open[i].dirty == dirty
  }

  /** The stack holds exactly the directories still open. */
  ghost predicate StackIs(h: seq<Found>, c: Option<Path>, open: seq<OpenDir>, dirty: bool) {
    && Nested(open) && AllMarked(open, dirty) && (dirty <==> !AllRead(h, |h|))
    && forall d :: IsOpen(h, c, d) <==> Stacked(open, d)
  }

  ghost predicate LastIs(h: seq<Found>, c: Option<Path>, last: Option<Path>) {
    match last
    case None => NothingDone(h, c)
    case Some(d) => IsLastDone(h, c, d)
  }

  function LastOf(s: Scan): Option<Path> { if s.waiting.Some? then s.waiting else s.safe }

  /** The scan's variables are what the history says. */
  ghost predicate Ledger(h: seq<Found>, c: Option<Path>, s: Scan) {
    StackIs(h, c, s.open, s.errors > 0) && (s.dirtyFromNow <==> s.errors > 0) && LastIs(h, c, LastOf(s))
  }

  // ---------------------------------------------------------------- something unreadable

  lemma UnreadableDone(h: seq<Found>, c: Option<Path>, a: nat, b: nat)
    ensures Done(h + [Unreadable], c, a, b) <==> Done(h, c, a, b)
  {
    var h' := h + [Unreadable];
    assert forall x :: 0 <= x < |h| ==> h'[x] == h[x];
  }

  lemma UnreadableStillOpen(h: seq<Found>, c: Option<Path>, a: nat)
    ensures StillOpen(h + [Unreadable], c, a) <==> StillOpen(h, c, a)
  {
    var h' := h + [Unreadable];
    assert forall x :: 0 <= x < |h| ==> h'[x] == h[x];
  }

  lemma SameLast(h: seq<Found>, h': seq<Found>, c: Option<Path>, last: Option<Path>)
    requires LastIs(h, c, last) && h <= h' && forall a: nat, b: nat :: Done(h', c, a, b) <==> Done(h, c, a, b)
    ensures LastIs(h', c, last)
  {
    if last.Some? {
      var a: nat, b: nat :| LastDone(h, c, a, b) && h[a].path == last.value;
      assert Done(h', c, a, b);
      forall x: nat, y: nat | Done(h', c, x, y) ensures y < b || (y == b && |h'[a].path| <= |h'[x].path|) {
        assert Done(h, c, x, y);
      }
      assert LastDone(h', c, a, b) && h'[a].path == last.value;
    }
  }

  lemma UnreadableKeeps(h: seq<Found>, c: Option<Path>, s: Scan, s': Scan)
    requires Ledger(h, c, s)
    requires s'.errors == s.errors + 1 && s'.open == AllDirty(s.open) && s'.dirtyFromNow
    requires s'.waiting == s.waiting && s'.safe == s.safe
    ensures Ledger(h + [Unreadable], c, s')
  {
    var h' := h + [Unreadable];
    assert !h'[|h|].Entry?;
    forall d ensures IsOpen(h', c, d) <==> Stacked(s'.open, d) {
      assert Stacked(s'.open, d) <==> Stacked(s.open, d) by {
        if i :| 0 <= i < |s.open| && s.open[i].rel == d { assert s'.open[i].rel == d; }
      }
      forall a: nat ensures StillOpen(h', c, a) <==> StillOpen(h, c, a) { UnreadableStillOpen(h, c, a); }
      assert IsOpen(h', c, d) <==> IsOpen(h, c, d) by {
        if a: nat :| StillOpen(h, c, a) && h[a].path == d { assert StillOpen(h', c, a) && h'[a].path == d; }
        if a: nat :| StillOpen(h', c, a) && h'[a].path == d { assert StillOpen(h, c, a) && h[a].path == d; }
      }
    }
    forall a: nat, b: nat ensures Done(h', c, a, b) <==> Done(h, c, a, b) { UnreadableDone(h, c, a, b); }
    SameLast(h, h', c, LastOf(s));
  }

  // ---------------------------------------------------------------- directories are left

  /** The directory below the root that is left last when the stack is cut back to `m`. */
  ghost function Shallowest(open: seq<OpenDir>, m: nat): Option<Path> {
    if m < |open| && open[m].rel != [] then Some(open[m].rel)
    else if m + 1 < |open| then Some(open[m + 1].rel)
    else None
  }

  lemma ShallowestOfLonger(open: seq<OpenDir>, m: nat)
    requires Nested(open) && m < |open|
    ensures var front, last := open[..|open| - 1], open[|open| - 1].rel;
      Shallowest(open, m) == if Shallowest(front, m).Some? then Shallowest(front, m)
                             else if last != [] then Some(last) else None
  {
  }

  /** The stack cut back to what is shallower than `depth`, and what was left last on the way. */
  ghost predicate CutBack(s: Scan, s': Scan, depth: nat, dirty: bool) {
    var m := |s'.open|;
    && m <= |s.open| && s'.open == s.open[..m]
    && (forall i :: 0 <= i < m ==> |s.open[i].rel| < depth)
    && (forall i :: m <= i < |s.open| ==> |s.open[i].rel| >= depth)
    && s'.waiting == LeftLast(s.open, m, dirty, s.waiting)
  }

  ghost function LeftLast(open: seq<OpenDir>, m: nat, dirty: bool, waiting: Option<Path>): Option<Path> {
    if dirty || Shallowest(open, m).None? then waiting else Shallowest(open, m)
  }

  lemma LeftLastOfLonger(open: seq<OpenDir>, m: nat, dirty: bool, waiting: Option<Path>, next: Option<Path>)
    requires Nested(open) && m < |open|
    requires next == if dirty || open[|open| - 1].rel == [] then waiting else Some(open[|open| - 1].rel)
    ensures LeftLast(open[..|open| - 1], m, dirty, next) == LeftLast(open, m, dirty, waiting)
  {
    ShallowestOfLonger(open, m);
  }

  lemma ClosedOne(s: Scan, t: Scan, dirty: bool)
    requires Nested(s.open) && AllMarked(s.open, dirty) && s.open != [] && t == Closed(s)
    ensures var n := |s.open| - 1; var last := s.open[n].rel;
      && t.open == s.open[..n] && Nested(t.open) && AllMarked(t.open, dirty)
      && t.waiting == if dirty || last == [] then s.waiting else Some(last)
  {
  }

  lemma CutBackMore(s: Scan, t: Scan, s': Scan, depth: nat, dirty: bool)
    requires Nested(s.open) && s.open != [] && |s.open[|s.open| - 1].rel| >= depth
    requires t.open == s.open[..|s.open| - 1] && CutBack(t, s', depth, dirty)
    requires var last := s.open[|s.open| - 1].rel; t.waiting == if dirty || last == [] then s.waiting else Some(last)
    ensures CutBack(s, s', depth, dirty)
  {
    LeftLastOfLonger(s.open, |s'.open|, dirty, s.waiting, t.waiting);
    assert s'.open == s.open[..|s'.open|];
    forall i | |s'.open| <= i < |s.open| ensures |s.open[i].rel| >= depth {
      if i < |t.open| { assert s.open[i] == t.open[i]; }
    }
    forall i | 0 <= i < |s'.open| ensures |s.open[i].rel| < depth { assert s.open[i] == t.open[i]; }
  }

  lemma {:induction false} CloseEffect(s: Scan, depth: nat, dirty: bool)
    requires Nested(s.open) && AllMarked(s.open, dirty)
    ensures CutBack(s, CloseTo(s, depth), depth, dirty)
    decreases |s.open|
  {
    if s.open != [] && |s.open[|s.open| - 1].rel| >= depth {
      ClosedOne(s, Closed(s), dirty);
      CloseEffect(Closed(s), depth, dirty);
      CutBackMore(s, Closed(s), CloseTo(s, depth), depth, dirty);
    } else {
      NothingToClose(s, depth, dirty);
    }
  }

  lemma NothingToClose(s: Scan, depth: nat, dirty: bool)
    requires Nested(s.open) && (s.open == [] || |s.open[|s.open| - 1].rel| < depth)
    ensures CloseTo(s, depth) == s && CutBack(s, s, depth, dirty)
  {
    assert s.open[..|s.open|] == s.open;
  }

  /** The directory left last is open, deep enough, and no other such directory is shallower. */
  lemma ShallowestIs(open: seq<OpenDir>, m: nat, depth: nat)
    requires Nested(open) && m <= |open|
    requires forall i :: 0 <= i < m ==> |open[i].rel| < depth
    requires forall i :: m <= i < |open| ==> |open[i].rel| >= depth
    ensures var d := Shallowest(open, m);
      if d.None? then forall p :: Stacked(open, p) && p != [] ==> |p| < depth
      else Stacked(open, d.value) && d.value != [] && |d.value| >= depth
           && forall p :: Stacked(open, p) && p != [] && |p| >= depth ==> |d.value| <= |p|
  {
  }

  // ---------------------------------------------------------------- an entry

  predicate Pruned(c: Option<Path>, d: Path) { c.Some? && Prunable(d, c.value) }

  lemma EntryDone(h: seq<Found>, c: Option<Path>, q: Path, node: Node, a: nat, b: nat)
    ensures Done(h + [Entry(q, node)], c, a, b) <==>
      Done(h, c, a, b)
      || (b == |h| && StillOpen(h, c, a) && h[a].path != [] && |q| <= |h[a].path| && AllRead(h, |h|))
  {
    var h' := h + [Entry(q, node)];
    assert forall x :: 0 <= x < |h| ==> h'[x] == h[x];
    assert h'[|h|] == Entry(q, node);
  }

  lemma EntryStillOpen(h: seq<Found>, c: Option<Path>, q: Path, node: Node, a: nat)
    ensures StillOpen(h + [Entry(q, node)], c, a) <==>
      (StillOpen(h, c, a) && |h[a].path| < |q|) || (a == |h| && node.Dir? && !Pruned(c, q))
  {
    var h' := h + [Entry(q, node)];
    assert forall x :: 0 <= x < |h| ==> h'[x] == h[x];
    assert h'[|h|] == Entry(q, node);
  }

  lemma EntryIsOpen(h: seq<Found>, c: Option<Path>, q: Path, node: Node, d: Path)
    ensures IsOpen(h + [Entry(q, node)], c, d) <==>
      (IsOpen(h, c, d) && |d| < |q|) || (d == q && node.Dir? && !Pruned(c, q))
  {
    var h' := h + [Entry(q, node)];
    forall a: nat
      ensures StillOpen(h', c, a) <==>
        (StillOpen(h, c, a) && |h[a].path| < |q|) || (a == |h| && node.Dir? && !Pruned(c, q))
    {
      EntryStillOpen(h, c, q, node, a);
    }
    if IsOpen(h, c, d) && |d| < |q| {
      var a: nat :| StillOpen(h, c, a) && h[a].path == d;
      assert StillOpen(h', c, a) && h'[a].path == d;
    }
    if d == q && node.Dir? && !Pruned(c, q) { assert StillOpen(h', c, |h|) && h'[|h|].path == d; }
  }

  /** The last directory left at this entry is the last one done. */
  lemma EntryClosesLast(h: seq<Found>, c: Option<Path>, q: Path, node: Node, d: Path)
    requires AllRead(h, |h|) && IsOpen(h, c, d) && d != [] && |q| <= |d|
    requires forall p :: IsOpen(h, c, p) && p != [] && |p| >= |q| ==> |d| <= |p|
    ensures IsLastDone(h + [Entry(q, node)], c, d)
  {
    var h' := h + [Entry(q, node)];
    var a: nat :| StillOpen(h, c, a) && h[a].path == d;
    EntryDone(h, c, q, node, a, |h|);
    forall x: nat, y: nat | Done(h', c, x, y) ensures y < |h| || (y == |h| && |h'[a].path| <= |h'[x].path|) {
      EntryDone(h, c, q, node, x, y);
      if StillOpen(h, c, x) { assert IsOpen(h, c, h[x].path); }
    }
    assert LastDone(h', c, a, |h|) && h'[a].path == d;
  }

  /** An entry that closes no directory, or none that is clean. */
  lemma EntryClosesNone(h: seq<Found>, c: Option<Path>, q: Path, node: Node, last: Option<Path>)
    requires LastIs(h, c, last)
    requires !AllRead(h, |h|) || forall p :: IsOpen(h, c, p) && p != [] ==> |p| < |q|
    ensures LastIs(h + [Entry(q, node)], c, last)
  {
    var h' := h + [Entry(q, node)];
    forall a: nat, b: nat ensures Done(h', c, a, b) <==> Done(h, c, a, b) {
      EntryDone(h, c, q, node, a, b);
      if StillOpen(h, c, a) { assert IsOpen(h, c, h[a].path); }
    }
    SameLast(h, h', c, last);
  }

  lemma EntryLast(h: seq<Found>, c: Option<Path>, q: Path, node: Node, s: Scan, s': Scan)
    requires Ledger(h, c, s) && CutBack(s, s', |q|, s.errors > 0) && s'.safe == s.safe
    ensures LastIs(h + [Entry(q, node)], c, LastOf(s'))
  {
    var d := Shallowest(s.open, |s'.open|);
    ShallowestIs(s.open, |s'.open|, |q|);
    forall p ensures IsOpen(h, c, p) <==> Stacked(s.open, p) {}
    if s.errors > 0 || d.None? {
      EntryClosesNone(h, c, q, node, LastOf(s));
    } else {
      EntryClosesLast(h, c, q, node, d.value);
    }
  }

  lemma EntryStack(h: seq<Found>, c: Option<Path>, q: Path, node: Node, s: Scan, s': Scan, open: seq<OpenDir>)
    requires Ledger(h, c, s) && CutBack(s, s', |q|, s.errors > 0)
    requires open == if node.Dir? && !Pruned(c, q) then s'.open + [OpenDir(q, s.errors > 0)] else s'.open
    ensures StackIs(h + [Entry(q, node)], c, open, s.errors > 0)
  {
    var h' := h + [Entry(q, node)];
    assert AllRead(h', |h'|) <==> AllRead(h, |h|) by {
      if AllRead(h', |h'|) { forall x | 0 <= x < |h| ensures h[x].Entry? { assert h'[x] == h[x]; } }
    }
    forall d ensures IsOpen(h', c, d) <==> Stacked(open, d) {
      EntryIsOpen(h, c, q, node, d);
      assert IsOpen(h, c, d) <==> Stacked(s.open, d);
      CutStack(s.open, s'.open, |q|, d);
      PushStack(s'.open, q, s.errors > 0, d);
    }
  }

  lemma CutStack(open: seq<OpenDir>, left: seq<OpenDir>, depth: nat, d: Path)
    requires |left| <= |open| && left == open[..|left|]
    requires forall i :: 0 <= i < |left| ==> |open[i].rel| < depth
    requires forall i :: |left| <= i < |open| ==> |open[i].rel| >= depth
    ensures Stacked(left, d) <==> Stacked(open, d) && |d| < depth
  {
    if Stacked(open, d) && |d| < depth {
      var i :| 0 <= i < |open| && open[i].rel == d;
      assert left[i].rel == d;
    }
  }

  lemma PushStack(open: seq<OpenDir>, q: Path, dirty: bool, d: Path)
    ensures Stacked(open + [OpenDir(q, dirty)], d) <==> Stacked(open, d) || d == q
  {
    var more := open + [OpenDir(q, dirty)];
    if Stacked(open, d) {
      var i :| 0 <= i < |open| && open[i].rel == d;
      assert more[i].rel == d;
    }
    assert more[|open|].rel == q;
  }

  // ---------------------------------------------------------------- a turn

  lemma FlushLast(k: Settings, s: Scan)
    ensures LastOf(Flush(k, s)) == LastOf(s) == Flush(k, s).safe
    ensures Flush(k, s).open == s.open && Flush(k, s).errors == s.errors && Flush(k, s).dirtyFromNow == s.dirtyFromNow
  {
  }

  /** What follows the closing touches neither the books nor the last directory left. */
  lemma SeenBooks(w: World, o: Weather, k: Settings, s: Scan, q: Path, node: Node)
    ensures var s' := Seen(w, o, k, s, q, node);
      && s'.errors == s.errors && s'.dirtyFromNow == s.dirtyFromNow && LastOf(s') == LastOf(s)
      && s'.open == if node.Dir? && !Pruned(k.cursor, q) then s.open + [OpenDir(q, s.dirtyFromNow)] else s.open
  {
  }

  lemma TurnLedger(w: World, o: Weather, k: Settings, s: Scan, found: Found, it: Iter, h: seq<Found>)
    requires Ledger(h, k.cursor, s)
    ensures Ledger(h + [found], k.cursor, Turn(w, o, k, s, found, it))
  {
    match found
    case Unreadable => UnreadableKeeps(h, k.cursor, s, Turn(w, o, k, s, found, it));
    case Entry(q, node) =>
      var s1 := CloseTo(s, |q|);
      CloseEffect(s, |q|, s.errors > 0);
      EntryLast(h, k.cursor, q, node, s, s1);
      TurnSees(w, o, k, s, q, node, it);
      SeenBooks(w, o, k, s1.(it := it), q, node);
      EntryStack(h, k.cursor, q, node, s, s1, Turn(w, o, k, s, found, it).open);
  }

  lemma EmptyLedger(w: World, o: Weather, c: Option<Path>, rows: map<RowId, Row>)
    ensures Ledger([], c, StartScan(w, o, rows))
  {
  }

  /** The loop ends here. */
  lemma LoopEnds(w: World, o: Weather, k: Settings, s: Scan, n: nat)
    requires Next(o, s.it).0.None? || o.stop(n)
    ensures Taken(w, o, k, s, n) == []
    ensures Loop(w, o, k, s, n) ==
            if Next(o, s.it).0.None? then Exhausted(s.(it := Next(o, s.it).1)) else Stopped(s)
  {
  }

  lemma LoopTurns(w: World, o: Weather, k: Settings, s: Scan, n: nat, found: Found, s': Scan)
    requires Next(o, s.it).0 == Some(found) && !o.stop(n) && s' == Turn(w, o, k, s, found, Next(o, s.it).1)
    ensures Sooner(s'.it, s.it)
    ensures Taken(w, o, k, s, n) == [found] + Taken(w, o, k, s', n + 1)
    ensures Loop(w, o, k, s, n) == Loop(w, o, k, s', n + 1)
  {
    TurnSooner(w, o, k, s);
  }

  lemma LedgerIter(h: seq<Found>, c: Option<Path>, s: Scan, it: Iter)
    requires Ledger(h, c, s)
    ensures Ledger(h, c, s.(it := it))
  {
  }

  lemma LedgerAtEnd(w: World, o: Weather, k: Settings, s: Scan, n: nat, h: seq<Found>)
    requires Ledger(h, k.cursor, s) && (Next(o, s.it).0.None? || o.stop(n))
    ensures Ledger(h + Taken(w, o, k, s, n), k.cursor, Loop(w, o, k, s, n).s)
  {
    LoopEnds(w, o, k, s, n);
    LedgerIter(h, k.cursor, s, Next(o, s.it).1);
    assert h + [] == h;
  }

  lemma MoreHistory(h: seq<Found>, found: Found, rest: seq<Found>)
    ensures (h + [found]) + rest == h + ([found] + rest)
  {
  }

  lemma {:induction false} LoopLedger(w: World, o: Weather, k: Settings, s: Scan, n: nat, h: seq<Found>)
    requires Ledger(h, k.cursor, s)
    ensures Ledger(h + Taken(w, o, k, s, n), k.cursor, Loop(w, o, k, s, n).s)
    decreases NodesLeft(s.it), ItemsLeft(s.it)
  {
    var found := Next(o, s.it).0;
    if found.None? || o.stop(n) {
      LedgerAtEnd(w, o, k, s, n, h);
    } else {
      var s' := Turn(w, o, k, s, found.value, Next(o, s.it).1);
      LoopTurns(w, o, k, s, n, found.value, s');
      TurnLedger(w, o, k, s, found.value, Next(o, s.it).1, h);
      LoopLedger(w, o, k, s', n + 1, h + [found.value]);
      MoreHistory(h, found.value, Taken(w, o, k, s', n + 1));
    }
  }

  // ---------------------------------------------------------------- what a run stores

  /** Everything the run over the root takes, resumed at what the disk holds. */
  ghost function RunTakes(w: World, d: Disk, o: Weather, k: Settings): seq<Found> {
    Taken(w, o, k.(cursor := d.cursor), StartScan(w, o, d.rows), 0)
  }

  /** Nobody stopped the run. */
  ghost predicate RanOut(w: World, d: Disk, o: Weather, k: Settings) {
    Loop(w, o, k.(cursor := d.cursor), StartScan(w, o, d.rows), 0).Exhausted?
  }

  /** The cursor is the directory done last; a run that got none done leaves it alone. */
  ghost predicate StoresLast(h: seq<Found>, old_: Option<Path>, new_: Option<Path>) {
    if NothingDone(h, old_) then new_ == old_ else new_.Some? && IsLastDone(h, old_, new_.value)
  }

  lemma LastIsStored(h: seq<Found>, c: Option<Path>, s: Scan)
    requires LastIs(h, c, LastOf(s))
    ensures StoresLast(h, c, if LastOf(s).Some? then LastOf(s) else c)
  {
    if LastOf(s).Some? {
      var a: nat, b: nat :| LastDone(h, c, a, b) && h[a].path == LastOf(s).value;
      assert Done(h, c, a, b);
    }
  }

  /**
   * A run that is told to stop, or that could not read everything, stores the directory it got done last; a run that
   * took in the whole root forgets the cursor; one whose root changed under it leaves the cursor alone.
   */
  lemma RunStoresLastDone(w: World, d: Disk, o: Weather, k: Settings, later: Ts)
    ensures var h, new_ := RunTakes(w, d, o, k), Happen(w, d, Scans(o, k, later)).cursor;
      if !RanOut(w, d, o, k) then StoresLast(h, d.cursor, new_)
      else if !o.rootUnchanged then new_ == d.cursor
      else if AllRead(h, |h|) then new_ == None
      else StoresLast(h, d.cursor, new_)
  {
    var k' := k.(cursor := d.cursor);
    var start := StartScan(w, o, d.rows);
    var h := RunTakes(w, d, o, k);
    EmptyLedger(w, o, d.cursor, d.rows);
    LoopLedger(w, o, k', start, 0, []);
    assert [] + h == h;
    EndStoresLast(h, d, o, k', Loop(w, o, k', start, 0));
  }

  lemma EndStoresLast(h: seq<Found>, d: Disk, o: Weather, k: Settings, walked: Walked)
    requires Ledger(h, d.cursor, walked.s)
    ensures var new_ := NewCursor(d, Finish(o, k, walked));
      if walked.Stopped? then StoresLast(h, d.cursor, new_)
      else if !o.rootUnchanged then new_ == d.cursor
      else if AllRead(h, |h|) then new_ == None
      else StoresLast(h, d.cursor, new_)
  {
    var s := walked.s;
    LastIsStored(h, d.cursor, s);
    match walked
    case Stopped(_) => FlushLast(k, s);
    case Exhausted(_) =>
      var closed := CloseTo(s, 0);
      CloseEffect(s, 0, s.errors > 0);
      FlushLast(k, closed);
  }

  // ---------------------------------------------------------------- an undisturbed run

  ghost predicate Undisturbed(o: Weather) {
    o.rootReadable && o.rootUnchanged && (forall d :: o.errors(d) == 0) && (forall n :: !o.stop(n))
  }

  ghost predicate NoBads(it: Iter) {
    && (it.start.Some? ==> it.start.value.Good? && it.frames == [])
    && forall i :: 0 <= i < |it.frames| ==> AllGood(it.frames[i].rest)
  }

  ghost predicate AllGood(items: seq<Item>) {
    forall j :: 0 <= j < |items| ==> items[j].Good?
  }

  lemma {:induction false} EntriesGood(o: Weather, dir: Path, kids: seq<Kid>)
    ensures AllGood(Entries(o, dir, kids))
  {
    if kids != [] { EntriesGood(o, dir, kids[1..]); }
  }

  lemma VisitGood(o: Weather, fs: seq<Frame>, p: Path, node: Node)
    requires o.errors(p) == 0 && forall i :: 0 <= i < |fs| ==> AllGood(fs[i].rest)
    ensures NoBads(Iter(None, Visit(o, fs, p, node)))
  {
    if node.Dir? { EntriesGood(o, p, node.kids); }
  }

  lemma NextGood(o: Weather, it: Iter)
    requires Undisturbed(o) && NoBads(it)
    ensures NoBads(Next(o, it).1) && (Next(o, it).0.Some? ==> Next(o, it).0.value.Entry?)
  {
    match it.start
    case Some(start) => VisitGood(o, [], [], start.node);
    case None =>
      var fs := DropEmpty(it.frames);
      if fs != [] {
        var top := fs[|fs| - 1];
        var left := Left(fs);
        assert AllGood(top.rest) && top == it.frames[|fs| - 1];
        forall i | 0 <= i < |left| ensures AllGood(left[i].rest) { assert AllGood(it.frames[i].rest); }
        VisitGood(o, left, top.dir + [top.rest[0].name], top.rest[0].node);
      }
  }

  lemma TurnGood(w: World, o: Weather, k: Settings, s: Scan, found: Found, it: Iter)
    requires NoBads(it) && it.start.None? && found.Entry?
    ensures NoBads(Turn(w, o, k, s, found, it).it) && Turn(w, o, k, s, found, it).errors == s.errors
  {
    TurnIter(w, o, k, s, found, it);
    TurnSees(w, o, k, s, found.path, found.node, it);
    SeenBooks(w, o, k, CloseTo(s, |found.path|).(it := it), found.path, found.node);
  }

  lemma {:induction false} LoopGood(w: World, o: Weather, k: Settings, s: Scan, n: nat)
    requires Undisturbed(o) && NoBads(s.it) && s.errors == 0
    ensures Loop(w, o, k, s, n).Exhausted? && Loop(w, o, k, s, n).s.errors == 0
    decreases NodesLeft(s.it), ItemsLeft(s.it)
  {
    var found := Next(o, s.it).0;
    NextGood(o, s.it);
    if found.None? {
      LoopEnds(w, o, k, s, n);
    } else {
      var it := Next(o, s.it).1;
      var s' := Turn(w, o, k, s, found.value, it);
      LoopTurns(w, o, k, s, n, found.value, s');
      TurnGood(w, o, k, s, found.value, it);
      LoopGood(w, o, k, s', n + 1);
    }
  }

  /**
   * A run that nothing disturbs takes in the whole root, wherever it resumes: no cursor is left and every file has
   * its row.
   */
  lemma UndisturbedRunCompletes(w: World, d: Disk, o: Weather, k: Settings, later: Ts)
    requires WorldOk(w) && NothingMissed(w, d) && Undisturbed(o)
    ensures var d' := Happen(w, d, Scans(o, k, later)); d'.cursor.None? && AllListed(w, d'.rows)
  {
    var k' := k.(cursor := d.cursor);
    var start := StartScan(w, o, d.rows);
    LoopGood(w, o, k', start, 0);
    assert CloseTo(Loop(w, o, k', start, 0).s, 0).errors == 0;
    assert Completes(w, d, Scans(o, k, later));
    EventKeeps(w, d, Scans(o, k, later));
  }

  // ---------------------------------------------------------------- the batch stays small

  lemma TurnBatch(w: World, o: Weather, k: Settings, s: Scan, found: Found, it: Iter)
    requires k.batchMax > 0 && |s.batch| < k.batchMax
    ensures |Turn(w, o, k, s, found, it).batch| < k.batchMax
  {
    if found.Entry? { TurnSees(w, o, k, s, found.path, found.node, it); }
  }

  ghost function SmallBatch(k: Settings): Scan -> bool { (s: Scan) => |s.batch| < k.batchMax }

  /** Wherever a run is killed, less than a batch of rows was not yet written. */
  lemma LessThanABatchIsLost(w: World, o: Weather, k: Settings, rows: map<RowId, Row>, n: nat)
    requires k.batchMax > 0
    ensures |Partial(w, o, k, StartScan(w, o, rows), n).batch| < k.batchMax
  {
    forall s | SmallBatch(k)(s) ensures SmallBatch(k)(Advance(w, o, k, s)) {
      if Next(o, s.it).0.Some? { TurnBatch(w, o, k, s, Next(o, s.it).0.value, Next(o, s.it).1); }
    }
    TurnsKeep(w, o, k, StartScan(w, o, rows), n, SmallBatch(k));
  }
}
