/**
 * The initial scan of one root as steps: a sorted depth-first iterator over the tree,
 * the stack of open directories, the batch of rows, and the cursor a later run resumes from.
 */
module Walk {
  import opened Wrappers
  import opened Model
  import opened OpsSpec
  import opened Tree

  // ---------------------------------------------------------------- the iterator

  datatype Item = Bad | Good(name: Name, node: Node)

  /** A directory being listed, with what is left of its listing. */
  datatype Frame = Frame(dir: Path, rest: seq<Item>)

  /** `start` is the root before it is visited. */
  datatype Iter = Iter(start: Option<Item>, frames: seq<Frame>)

  datatype Found = Unreadable | Entry(path: Path, node: Node)

  /** What one run of the walk observes: listings that fail or lose entries, `lstat` failures, the stop flag. */
  datatype Weather = Weather(
    rootReadable: bool, errors: Path -> nat, listed: (Path, Name) -> bool,
    lstatWorks: Path -> bool, stop: nat -> bool, rootUnchanged: bool)

  /** A failed listing yields its errors first; without an error every entry is there. */
  function Listing(o: Weather, dir: Path, kids: seq<Kid>): seq<Item> {
    seq(o.errors(dir), _ => Bad) + Entries(o, dir, kids)
  }

  function Entries(o: Weather, dir: Path, kids: seq<Kid>): seq<Item> {
    if kids == [] then []
    else
      var rest := Entries(o, dir, kids[1..]);
      if o.errors(dir) == 0 || o.listed(dir, kids[0].name) then [Good(kids[0].name, kids[0].node)] + rest else rest
  }

  /** A directory is opened when it is visited. */
  function Visit(o: Weather, frames: seq<Frame>, path: Path, node: Node): seq<Frame> {
    if node.Dir? then frames + [Frame(path, Listing(o, path, node.kids))] else frames
  }

  function DropEmpty(frames: seq<Frame>): (r: seq<Frame>)
    ensures |r| <= |frames| && r == frames[..|r|]
    ensures r != [] ==> r[|r| - 1].rest != []
    ensures forall i :: |r| <= i < |frames| ==> frames[i].rest == []
  {
    if frames == [] || frames[|frames| - 1].rest != [] then frames else DropEmpty(frames[..|frames| - 1])
  }

  function Next(o: Weather, it: Iter): (Option<Found>, Iter) {
    match it.start
    case Some(Bad) => (Some(Unreadable), Iter(None, []))
    case Some(Good(_, node)) => (Some(Entry([], node)), Iter(None, Visit(o, [], [], node)))
    case None =>
      var frames := DropEmpty(it.frames);
      if frames == [] then (None, Iter(None, []))
      else
        var top := frames[|frames| - 1];
        var left := frames[..|frames| - 1] + [Frame(top.dir, top.rest[1..])];
        match top.rest[0]
        case Bad => (Some(Unreadable), Iter(None, left))
        case Good(name, node) =>
          var path := top.dir + [name];
          (Some(Entry(path, node)), Iter(None, Visit(o, left, path, node)))
  }

  /** Leaves out the directory that was just visited. */
  function SkipDir(it: Iter): Iter {
    if it.frames == [] then it else it.(frames := it.frames[..|it.frames| - 1])
  }

  // ---------------------------------------------------------------- the scan

  const LSTAT_UNKNOWN := 0xFFFF_FFFF_FFFF_FFFF
  const PRIORITY_SCAN := 2

  /** The root, its tree and the filter: what does not change between runs. */
  datatype World = World(root: int, tree: Node, minSize: nat, wanted: Path -> bool, optedOut: Path -> bool)

  ghost predicate WorldOk(w: World) {
    TreeOk(w.tree) && w.minSize <= LSTAT_UNKNOWN
  }

  predicate PassesPath(w: World, p: Path, size: nat) {
    w.wanted(p) && size >= w.minSize
  }

  predicate Passes(w: World, p: Path, size: nat) {
    PassesPath(w, p, size) && !w.optedOut(p)
  }

  datatype Settings = Settings(now: Ts, settleDelay: int, batchMax: nat, cursor: Option<Path>)

  datatype OpenDir = OpenDir(rel: Path, dirty: bool)

  datatype Scan = Scan(
    it: Iter, open: seq<OpenDir>, dirtyFromNow: bool, errors: nat,
    batch: seq<ScanRow>, waiting: Option<Path>, safe: Option<Path>, rows: map<RowId, Row>)

  function StartScan(w: World, o: Weather, rows: map<RowId, Row>): Scan {
    Scan(Iter(Some(if o.rootReadable then Good("", w.tree) else Bad), []), [], false, 0, [], None, None, rows)
  }

  function LocOf(root: int, p: Path): FileLoc {
    FileLoc(root, if p == [] then "" else PathText.Join(p))
  }

  /** An old enough file is `sized` without a date, a young one settles until it is old enough. */
  function NewScanRow(w: World, k: Settings, p: Path, seen: Identity): ScanRow {
    var mtime := MsOf(seen.mtime);
    if mtime <= k.now - k.settleDelay then ScanRow(seen, LocOf(w.root, p), Sized, None, PRIORITY_SCAN)
    else ScanRow(seen, LocOf(w.root, p), Settling, Some(mtime + k.settleDelay), PRIORITY_SCAN)
  }

  /** The batch is written first, the cursor may move afterwards. */
  function Flush(k: Settings, s: Scan): Scan {
    s.(rows := ScanInsert(s.rows, s.batch, k.now), batch := [],
       safe := if s.waiting.Some? then s.waiting else s.safe, waiting := None)
  }

  function DirDone(s: Scan, d: OpenDir): Scan {
    if d.dirty || d.rel == [] then s else s.(waiting := Some(d.rel))
  }

  /** Directories at `depth` or deeper are done. */
  function CloseTo(s: Scan, depth: nat): (r: Scan)
    ensures r.open <= s.open
    ensures r.open != [] ==> |r.open[|r.open| - 1].rel| < depth
    ensures r == s.(open := r.open, waiting := r.waiting)
    decreases |s.open|
  {
    if s.open == [] then s
    else
      var n := |s.open| - 1;
      var last := s.open[n];
      if |last.rel| < depth then s
      else CloseTo(DirDone(s.(open := s.open[..n]), last), depth)
  }

  function SeeFile(w: World, o: Weather, k: Settings, s: Scan, p: Path, len: nat, seen: Option<Identity>): Scan {
    var rough := if o.lstatWorks(p) then len else LSTAT_UNKNOWN;
    if !PassesPath(w, p, rough) then s
    else
      match seen
      case None => s
      case Some(id) =>
        if !Passes(w, p, id.size) then s
        else
          var s' := s.(batch := s.batch + [NewScanRow(w, k, p, id)]);
          if |s'.batch| >= k.batchMax then Flush(k, s') else s'
  }

  function AllDirty(open: seq<OpenDir>): (r: seq<OpenDir>)
    ensures |r| == |open| && forall i :: 0 <= i < |open| ==> r[i] == OpenDir(open[i].rel, true)
  {
    seq(|open|, i requires 0 <= i < |open| => OpenDir(open[i].rel, true))
  }

  function SeeDir(k: Settings, s: Scan, p: Path): Scan {
    if p != [] && k.cursor.Some? && Prunable(p, k.cursor.value) then s.(it := SkipDir(s.it))
    else s.(open := s.open + [OpenDir(p, s.dirtyFromNow)])
  }

  /** One turn of the loop, after the iterator found something and nobody asked to stop. */
  function Turn(w: World, o: Weather, k: Settings, s: Scan, found: Found, it: Iter): Scan {
    match found
    case Unreadable => s.(it := it, errors := s.errors + 1, open := AllDirty(s.open), dirtyFromNow := true)
    case Entry(p, node) =>
      var s1 := CloseTo(s, |p|).(it := it);
      match node
      case Dir(_) => SeeDir(k, s1, p)
      case File(len, seen) => SeeFile(w, o, k, s1, p, len, seen)
      case Other => s1
  }

  // ---------------------------------------------------------------- the walk ends

  function NodeCount(n: Node): (c: nat)
    ensures c >= 1
  {
    match n
    case Dir(kids) => 1 + KidsCount(kids)
    case _ => 1
  }

  function KidsCount(kids: seq<Kid>): nat {
    if kids == [] then 0 else NodeCount(kids[0].node) + KidsCount(kids[1..])
  }

  ghost function ItemNodes(i: Item): nat {
    if i.Bad? then 0 else NodeCount(i.node)
  }

  ghost function ItemsNodes(items: seq<Item>): nat {
    if items == [] then 0 else ItemNodes(items[0]) + ItemsNodes(items[1..])
  }

  ghost function FramesNodes(fs: seq<Frame>): nat {
    if fs == [] then 0 else FramesNodes(fs[..|fs| - 1]) + ItemsNodes(fs[|fs| - 1].rest)
  }

  ghost function FramesItems(fs: seq<Frame>): nat {
    if fs == [] then 0 else FramesItems(fs[..|fs| - 1]) + |fs[|fs| - 1].rest|
  }

  /** Nodes still to be visited, then items still to be listed. */
  ghost function NodesLeft(it: Iter): nat {
    (if it.start.Some? then ItemNodes(it.start.value) + 1 else 0) + FramesNodes(it.frames)
  }

  ghost function ItemsLeft(it: Iter): nat { FramesItems(it.frames) }

  lemma {:induction false} BadsCount(n: nat, rest: seq<Item>)
    ensures ItemsNodes(seq(n, _ => Bad) + rest) == ItemsNodes(rest)
  {
    var s := seq(n, _ => Bad) + rest;
    if n == 0 {
      assert s == rest;
    } else {
      assert s[1..] == seq(n - 1, _ => Bad) + rest;
      BadsCount(n - 1, rest);
    }
  }

  lemma {:induction false} EntriesCount(o: Weather, dir: Path, kids: seq<Kid>)
    ensures ItemsNodes(Entries(o, dir, kids)) <= KidsCount(kids)
  {
    if kids != [] { EntriesCount(o, dir, kids[1..]); }
  }

  lemma ListingCount(o: Weather, dir: Path, kids: seq<Kid>)
    ensures ItemsNodes(Listing(o, dir, kids)) <= KidsCount(kids)
  {
    BadsCount(o.errors(dir), Entries(o, dir, kids));
    EntriesCount(o, dir, kids);
  }

  lemma VisitCount(o: Weather, frames: seq<Frame>, path: Path, node: Node)
    ensures FramesNodes(Visit(o, frames, path, node)) < FramesNodes(frames) + NodeCount(node)
  {
    if node.Dir? {
      ListingCount(o, path, node.kids);
      assert Visit(o, frames, path, node)[..|frames|] == frames;
    }
  }

  lemma {:induction false} DropEmptyCount(frames: seq<Frame>)
    ensures FramesNodes(DropEmpty(frames)) == FramesNodes(frames)
    ensures FramesItems(DropEmpty(frames)) == FramesItems(frames)
  {
    if frames != [] && frames[|frames| - 1].rest == [] { DropEmptyCount(frames[..|frames| - 1]); }
  }

  ghost predicate Sooner(a: Iter, b: Iter) {
    NodesLeft(a) < NodesLeft(b) || (NodesLeft(a) == NodesLeft(b) && ItemsLeft(a) < ItemsLeft(b))
  }

  /** Taking the top item: a node is visited, or an error is one item less. */
  lemma TakeSooner(o: Weather, frames: seq<Frame>, left: seq<Frame>)
    requires frames != [] && frames[|frames| - 1].rest != []
    requires var top := frames[|frames| - 1]; left == frames[..|frames| - 1] + [Frame(top.dir, top.rest[1..])]
    ensures FramesItems(left) == FramesItems(frames) - 1
    ensures FramesNodes(left) + ItemNodes(frames[|frames| - 1].rest[0]) == FramesNodes(frames)
  {
    assert left[..|frames| - 1] == frames[..|frames| - 1];
  }

  lemma NextSooner(o: Weather, it: Iter)
    requires Next(o, it).0.Some?
    ensures Sooner(Next(o, it).1, it)
    ensures Next(o, it).0.value.Entry? ==> NodesLeft(Next(o, it).1) < NodesLeft(it)
  {
    match it.start
    case Some(Bad) =>
    case Some(Good(_, node)) => VisitCount(o, [], [], node);
    case None =>
      var frames := DropEmpty(it.frames);
      DropEmptyCount(it.frames);
      var n := |frames| - 1;
      var top := frames[n];
      var left := frames[..n] + [Frame(top.dir, top.rest[1..])];
      TakeSooner(o, frames, left);
      if top.rest[0].Good? { VisitCount(o, left, top.dir + [top.rest[0].name], top.rest[0].node); }
  }

  lemma SkipCount(it: Iter)
    ensures NodesLeft(SkipDir(it)) <= NodesLeft(it)
  {
  }

  /** What the turn makes of the iterator: as found, or without the directory just found. */
  lemma TurnIter(w: World, o: Weather, k: Settings, s: Scan, found: Found, it: Iter)
    ensures var after := Turn(w, o, k, s, found, it).it;
      after == it || (found.Entry? && after == SkipDir(it))
  {
  }

  lemma TurnSooner(w: World, o: Weather, k: Settings, s: Scan)
    requires Next(o, s.it).0.Some?
    ensures Sooner(Turn(w, o, k, s, Next(o, s.it).0.value, Next(o, s.it).1).it, s.it)
  {
    var (found, it) := Next(o, s.it);
    NextSooner(o, s.it);
    SkipCount(it);
    TurnIter(w, o, k, s, found.value, it);
  }

  datatype Walked = Exhausted(s: Scan) | Stopped(s: Scan)

  /** The loop from turn `n` on. */
  function Loop(w: World, o: Weather, k: Settings, s: Scan, n: nat): Walked
    decreases NodesLeft(s.it), ItemsLeft(s.it)
  {
    var (found, it) := Next(o, s.it);
    if found.None? then Exhausted(s.(it := it))
    else if o.stop(n) then Stopped(s)
    else
      TurnSooner(w, o, k, s);
      Loop(w, o, k, Turn(w, o, k, s, found.value, it), n + 1)
  }

  /** One turn, if there is anything left to find. */
  function Advance(w: World, o: Weather, k: Settings, s: Scan): Scan {
    var (found, it) := Next(o, s.it);
    if found.None? then s else Turn(w, o, k, s, found.value, it)
  }

  /** The state after at most `n` turns: where a killed process leaves off. */
  function Partial(w: World, o: Weather, k: Settings, s: Scan, n: nat): Scan
    decreases n
  {
    if n == 0 then s else Partial(w, o, k, Advance(w, o, k, s), n - 1)
  }

  // ---------------------------------------------------------------- a run, and what it stores

  /** An error ends the walk too, but then nobody stores the cursor; both end with a last flush. */
  datatype RunEnd = Broken(s: Scan) | Ended(s: Scan, complete: bool)

  function Finish(o: Weather, k: Settings, walked: Walked): RunEnd {
    match walked
    case Stopped(s) => Ended(Flush(k, s), false)
    case Exhausted(s) =>
      var closed := CloseTo(s, 0);
      if !o.rootUnchanged then Broken(Flush(k, closed))
      else Ended(Flush(k, closed), closed.errors == 0)
  }

  function RunScan(w: World, o: Weather, k: Settings, rows: map<RowId, Row>): RunEnd {
    Finish(o, k, Loop(w, o, k, StartScan(w, o, rows), 0))
  }

  /** What outlives the process: the rows and `scan_progress.last_completed_dir`. */
  datatype Disk = Disk(rows: map<RowId, Row>, cursor: Option<Path>)

  /** A complete run clears the cursor; any other moves it only if a directory is safe. */
  function NewCursor(d: Disk, end: RunEnd): Option<Path> {
    match end
    case Broken(_) => d.cursor
    case Ended(s, complete) => if complete then None else if s.safe.Some? then s.safe else d.cursor
  }

  function AfterRun(w: World, d: Disk, end: RunEnd, later: Ts): Disk {
    Disk(if end.Ended? && end.complete then ScanPhaseB(end.s.rows, w.root, later) else end.s.rows, NewCursor(d, end))
  }

  /** A run that ends by itself, one that is killed (its last flush done or not), and other writers in between. */
  datatype Event =
    | Scans(o: Weather, k: Settings, later: Ts)
    | Killed(o: Weather, k: Settings, turns: nat, flushed: bool)
    | Others(rows: map<RowId, Row>)

  function Happen(w: World, d: Disk, e: Event): Disk {
    match e
    case Scans(o, k, later) => AfterRun(w, d, RunScan(w, o, k.(cursor := d.cursor), d.rows), later)
    case Killed(o, k, n, flushed) =>
      var k' := k.(cursor := d.cursor);
      var s := Partial(w, o, k', StartScan(w, o, d.rows), n);
      d.(rows := if flushed then Flush(k', s).rows else s.rows)
    case Others(rows) => d.(rows := rows)
  }

  function History(w: World, d: Disk, es: seq<Event>): Disk
    decreases |es|
  {
    if es == [] then d else History(w, Happen(w, d, es[0]), es[1..])
  }
}
