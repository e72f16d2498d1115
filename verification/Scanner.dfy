/** The initial scan as it runs: a loop over the iterator, a batch in memory, and the stored cursor. */
module Scanner {
  import opened Wrappers
  import opened Model
  import opened OpsSpec
  import opened Tree
  import opened Walk
  import opened Store

  /** Collects rows and writes them a batch at a time; a cursor is safe once its batch is written. */
  class BatchInserter {
    const repo: Repository
    const world: World
    const settings: Settings
    var batch: seq<ScanRow>
    var waiting: Option<Path>
    var safe: Option<Path>

    constructor (repo: Repository, world: World, settings: Settings)
      ensures this.repo == repo && this.world == world && this.settings == settings
      ensures batch == [] && waiting == None && safe == None
    {
      this.repo, this.world, this.settings := repo, world, settings;
      batch, waiting, safe := [], None, None;
    }

    /** The part of a scan's state that lives here and in the repository. */
    ghost predicate Holds(s: Scan)
      reads this, repo
    {
      && s.batch == batch && s.waiting == waiting && s.safe == safe && s.rows == repo.rows
      && world.root in repo.roots && forall j :: 0 <= j < |batch| ==> batch[j].loc.root == world.root
    }

    method WriteBatch(ghost s: Scan)
      requires Holds(s)
      modifies this, repo`rows
      ensures Holds(Flush(settings, s))
    {
      if batch != [] {
        var n := repo.InsertScanned(batch, settings.now);
        batch := [];
      }
      if waiting.Some? {
        safe := waiting;
      }
      waiting := None;
    }

    method SeeFile(o: Weather, p: Path, len: nat, seen: Option<Identity>, ghost s: Scan)
      requires Holds(s)
      modifies this, repo`rows
      ensures Holds(Walk.SeeFile(world, o, settings, s, p, len, seen))
    {
      if !PassesPath(world, p, if o.lstatWorks(p) then len else LSTAT_UNKNOWN) || seen.None? {
        return;
      }
      if !Passes(world, p, seen.value.size) {
        return;
      }
      batch := batch + [NewScanRow(world, settings, p, seen.value)];
      if |batch| >= settings.batchMax {
        WriteBatch(s.(batch := batch));
      }
    }

    method DirDone(d: OpenDir, ghost s: Scan)
      requires Holds(s)
      modifies this`waiting
      ensures Holds(Walk.DirDone(s, d))
    {
      if !d.dirty && d.rel != [] {
        waiting := Some(d.rel);
      }
    }

    /** Takes the directories at `depth` or deeper off the stack. */
    method CloseDirs(open: seq<OpenDir>, depth: nat, ghost s: Scan) returns (left: seq<OpenDir>)
      requires Holds(s) && s.open == open
      modifies this`waiting
      ensures Holds(CloseTo(s, depth)) && left == CloseTo(s, depth).open
    {
      left := open;
      ghost var t := s;
      while left != [] && |left[|left| - 1].rel| >= depth
        invariant Holds(t) && t.open == left && CloseTo(t, depth) == CloseTo(s, depth)
        decreases |left|
      {
        var last := left[|left| - 1];
        left := left[..|left| - 1];
        t := t.(open := left);
        DirDone(last, t);
        t := Walk.DirDone(t, last);
      }
    }

    /** What the loop holds in its own variables. */
    ghost predicate Agrees(s: Scan, it: Iter, open: seq<OpenDir>, dirtyFromNow: bool, errors: nat)
      reads this, repo
    {
      Holds(s) && s.it == it && s.open == open && s.dirtyFromNow == dirtyFromNow && s.errors == errors
    }

    /** One entry or error of the iterator, whose next state is `next`. */
    method TakeTurn(o: Weather, found: Found, next: Iter, open0: seq<OpenDir>, dirty0: bool, errors0: nat,
                    ghost s: Scan)
      returns (it: Iter, open: seq<OpenDir>, dirtyFromNow: bool, errors: nat)
      requires Agrees(s, s.it, open0, dirty0, errors0)
      modifies this, repo`rows
      ensures Agrees(Turn(world, o, settings, s, found, next), it, open, dirtyFromNow, errors)
    {
      it, open, dirtyFromNow, errors := next, open0, dirty0, errors0;
      match found {
        case Unreadable =>
          open, dirtyFromNow, errors := AllDirty(open), true, errors + 1;
        case Entry(p, node) =>
          open := CloseDirs(open, |p|, s);
          ghost var s1 := CloseTo(s, |p|).(it := next);
          match node {
            case Dir(_) =>
              if p != [] && settings.cursor.Some? && Prunable(p, settings.cursor.value) {
                it := SkipDir(next);
              } else {
                open := open + [OpenDir(p, dirtyFromNow)];
              }
            case File(len, seen) => SeeFile(o, p, len, seen, s1);
            case Other =>
          }
      }
    }

    /** The loop; `complete` is whether the whole root was walked, `sameRoot` whether it still is the same root. */
    method WalkRoot(o: Weather) returns (complete: bool, sameRoot: bool)
      requires world.root in repo.roots && batch == [] && waiting == None && safe == None
      modifies this, repo`rows
      ensures match RunScan(world, o, settings, old(repo.rows))
              case Broken(s) => !sameRoot && Holds(s)
              case Ended(s, c) => sameRoot && complete == c && Holds(s)
    {
      ghost var s := StartScan(world, o, repo.rows);
      ghost var start := s;
      var it: Iter := StartScan(world, o, repo.rows).it;
      var open: seq<OpenDir>, dirtyFromNow, errors: nat := [], false, 0;
      var (found, next) := Next(o, it);
      var n := 0;
      while found.Some? && !o.stop(n)
        invariant Agrees(s, it, open, dirtyFromNow, errors) && (found, next) == Next(o, it)
        invariant Loop(world, o, settings, s, n) == Loop(world, o, settings, start, 0)
        decreases NodesLeft(it), ItemsLeft(it)
      {
        TurnSooner(world, o, settings, s);
        it, open, dirtyFromNow, errors := TakeTurn(o, found.value, next, open, dirtyFromNow, errors, s);
        s := Turn(world, o, settings, s, found.value, next);
        found, next := Next(o, it).0, Next(o, it).1;
        n := n + 1;
      }
      if found.Some? {
        WriteBatch(s);
        return false, true;
      }
      s := s.(it := next);
      open := CloseDirs(open, 0, s);
      WriteBatch(CloseTo(s, 0));
      sameRoot := o.rootUnchanged;
      complete := sameRoot && errors == 0;
    }
  }

  /** What the daemon keeps of the scan of one root between restarts. */
  class Progress {
    var cursor: Option<Path>
    var done: bool

    constructor ()
      ensures cursor == None && !done
    {
      cursor, done := None, false;
    }
  }

  /** One root from the stored cursor on; the cursor is stored only when the walk returns. */
  method ScanRoot(repo: Repository, progress: Progress, w: World, o: Weather, k: Settings, later: Ts)
    requires k.cursor == progress.cursor && w.root in repo.roots
    modifies repo`rows, progress
    ensures Disk(repo.rows, progress.cursor) ==
            Happen(w, old(Disk(repo.rows, progress.cursor)), Scans(o, k, later))
    ensures progress.done == (old(progress.done) ||
              (var end := RunScan(w, o, k, old(repo.rows)); end.Ended? && end.complete))
  {
    var h := new BatchInserter(repo, w, k);
    var complete, sameRoot := h.WalkRoot(o);
    if !sameRoot {
      return;
    }
    if complete {
      progress.cursor := None;
      repo.ClosePhaseB(w.root, later);
      progress.done := true;
    } else if h.safe.Some? {
      progress.cursor := h.safe;
    }
  }
}
