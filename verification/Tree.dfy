/**
 * A directory tree with its names in order, paths as component lists, and the order
 * in which a resumed walk compares a directory with the stored cursor.
 */
module Tree {
  import opened Wrappers
  import opened Model
  import opened PathText

  type Name = string
  type Path = seq<Name>

  /** A regular file has the length `lstat` reports and the identity `statx` answers, if it does. */
  datatype Node = File(len: nat, seen: Option<Identity>) | Dir(kids: seq<Kid>) | Other

  datatype Kid = Kid(name: Name, node: Node)

  function FindKid(kids: seq<Kid>, name: Name): (r: Option<Node>)
    ensures r.Some? ==> exists i :: 0 <= i < |kids| && kids[i].name == name && kids[i].node == r.value
  {
    if kids == [] then None
    else if kids[0].name == name then Some(kids[0].node)
    else FindKid(kids[1..], name)
  }

  /** What lies at a path of the tree. */
  function At(t: Node, p: Path): Option<Node>
    decreases |p|
  {
    if p == [] then Some(t)
    else if !t.Dir? then None
    else
      match FindKid(t.kids, p[0])
      case None => None
      case Some(n) => At(n, p[1..])
  }

  ghost predicate Sorted(kids: seq<Kid>) {
    forall i, j :: 0 <= i < j < |kids| ==> Before(kids[i].name, kids[j].name)
  }

  /** Names of a directory are distinct and come in order; `lstat` and `statx` agree on the size. */
  ghost predicate TreeOk(t: Node) {
    forall p :: At(t, p).Some? ==> NodeOk(At(t, p).value)
  }

  ghost predicate NodeOk(n: Node) {
    match n
    case Dir(kids) => Sorted(kids)
    case File(len, Some(id)) => id.size == len
    case _ => true
  }

  // ---------------------------------------------------------------- the order of names

  lemma {:induction false} BeforeIrreflexive(a: string)
    ensures !Before(a, a)
  {
    if a != "" { BeforeIrreflexive(a[1..]); }
  }

  lemma {:induction false} BeforeTotal(a: string, b: string)
    ensures a == b || Before(a, b) || Before(b, a)
  {
    if a != "" && b != "" && a[0] == b[0] {
      BeforeTotal(a[1..], b[1..]);
      assert a == [a[0]] + a[1..] && b == [b[0]] + b[1..];
    }
  }

  lemma {:induction false} BeforeTransitive(a: string, b: string, c: string)
    requires Before(a, b) && Before(b, c)
    ensures Before(a, c)
  {
    if a != "" && a[0] == b[0] && b[0] == c[0] { BeforeTransitive(a[1..], b[1..], c[1..]); }
  }

  // ---------------------------------------------------------------- the order of paths

  /** Component by component; a directory comes before what lies in it. */
  predicate PathBefore(a: Path, b: Path) {
    b != [] && (a == [] || Before(a[0], b[0]) || (a[0] == b[0] && PathBefore(a[1..], b[1..])))
  }

  /** The whole directory lies before the cursor, so a resumed walk leaves it out. */
  predicate Prunable(dir: Path, cursor: Path) {
    PathBefore(dir, cursor) && !(dir <= cursor)
  }

  /** The paths part at component `i`, where `a` takes the earlier name. */
  ghost predicate PartsAt(a: Path, b: Path, i: nat) {
    i < |a| && i < |b| && a[..i] == b[..i] && Before(a[i], b[i])
  }

  lemma PartsTail(a: Path, b: Path, i: nat)
    requires a != [] && b != [] && a[0] == b[0] && PartsAt(a[1..], b[1..], i)
    ensures PartsAt(a, b, i + 1)
  {
    assert a[..i + 1] == [a[0]] + a[1..][..i] && b[..i + 1] == [b[0]] + b[1..][..i];
  }

  lemma {:induction false} PrunableParts(a: Path, b: Path) returns (i: nat)
    requires Prunable(a, b)
    ensures PartsAt(a, b, i)
  {
    if Before(a[0], b[0]) {
      i := 0;
    } else {
      assert a == [a[0]] + a[1..] && b == [b[0]] + b[1..];
      var k := PrunableParts(a[1..], b[1..]);
      PartsTail(a, b, k);
      i := k + 1;
    }
  }

  lemma {:induction false} PartsPrunable(a: Path, b: Path, i: nat)
    requires PartsAt(a, b, i)
    ensures Prunable(a, b)
    decreases i
  {
    BeforeIrreflexive(a[i]);
    if i > 0 {
      assert a[..i][0] == b[..i][0];
      assert a[1..][..i - 1] == a[..i][1..] && b[1..][..i - 1] == b[..i][1..];
      PartsPrunable(a[1..], b[1..], i - 1);
    }
  }

  /** Pruning a directory is exactly parting from the cursor towards an earlier name. */
  lemma PrunableIffParts(dir: Path, cursor: Path)
    ensures Prunable(dir, cursor) <==> exists i: nat :: PartsAt(dir, cursor, i)
  {
    if Prunable(dir, cursor) { var i := PrunableParts(dir, cursor); }
    if i: nat :| PartsAt(dir, cursor, i) { PartsPrunable(dir, cursor, i); }
  }

  /** Everything below a pruned directory would be pruned as well. */
  lemma PrunableBelow(dir: Path, below: Path, cursor: Path)
    requires Prunable(dir, cursor) && dir <= below
    ensures Prunable(below, cursor)
  {
    var i := PrunableParts(dir, cursor);
    assert below[..i] == dir[..i];
    PartsPrunable(below, cursor, i);
  }

  /** A walk resumed at the cursor does not reach the file at `p`. */
  ghost predicate LeftOut(p: Path, cursor: Path) {
    p != [] && Prunable(p[..|p| - 1], cursor)
  }

  /** A file is skipped exactly when one of the directories above it is pruned. */
  lemma LeftOutIffPrunedAbove(p: Path, cursor: Path)
    ensures LeftOut(p, cursor) <==> exists n :: 0 < n < |p| && Prunable(p[..n], cursor)
  {
    if n :| 0 < n < |p| && Prunable(p[..n], cursor) {
      PrunableBelow(p[..n], p[..|p| - 1], cursor);
    }
  }

  /** Paths that leave the cursor towards a later name, or lie below it, are not skipped. */
  lemma LaterNotLeftOut(p: Path, cursor: Path, i: nat)
    requires i < |p| && i < |cursor| && p[..i] == cursor[..i] && Before(cursor[i], p[i])
    ensures !LeftOut(p, cursor)
  {
    if LeftOut(p, cursor) {
      var k := PrunableParts(p[..|p| - 1], cursor);
      assert p[..|p| - 1][..k] == p[..k];
      if k < i {
        assert p[..i][k] == cursor[..i][k];
        BeforeIrreflexive(p[k]);
      } else if i < k {
        assert p[..k][i] == cursor[..k][i];
        BeforeIrreflexive(p[i]);
      } else {
        BeforeTransitive(cursor[i], p[i], cursor[i]);
        BeforeIrreflexive(cursor[i]);
      }
    }
  }

  lemma BelowNotLeftOut(p: Path, cursor: Path)
    requires cursor <= p
    ensures !LeftOut(p, cursor)
  {
    if LeftOut(p, cursor) {
      var k := PrunableParts(p[..|p| - 1], cursor);
      assert p[k] == cursor[k];
      BeforeIrreflexive(p[k]);
    }
  }

  // ---------------------------------------------------------------- lookups

  lemma {:induction false} FindKidAt(kids: seq<Kid>, j: nat)
    requires j < |kids| && Sorted(kids)
    ensures FindKid(kids, kids[j].name) == Some(kids[j].node)
  {
    if j > 0 {
      BeforeIrreflexive(kids[j].name);
      assert Before(kids[0].name, kids[j].name);
      FindKidAt(kids[1..], j - 1);
    }
  }

  /** Looking up a path in two stages. */
  lemma {:induction false} AtConcat(t: Node, a: Path, b: Path)
    requires At(t, a).Some?
    ensures At(t, a + b) == At(At(t, a).value, b)
    decreases |a|
  {
    if a == [] {
      assert a + b == b;
    } else {
      assert (a + b)[1..] == a[1..] + b;
      AtConcat(FindKid(t.kids, a[0]).value, a[1..], b);
    }
  }

  /** What lies above something that exists exists, too. */
  lemma {:induction false} AtAbove(t: Node, p: Path, n: nat)
    requires n <= |p| && At(t, p).Some?
    ensures At(t, p[..n]).Some? && At(t, p) == At(At(t, p[..n]).value, p[n..])
    decreases n
  {
    if n == 0 {
      assert p[..0] == [] && p[0..] == p;
    } else {
      var k := FindKid(t.kids, p[0]).value;
      AtAbove(k, p[1..], n - 1);
      assert p[..n][0] == p[0] && p[..n][1..] == p[1..][..n - 1] && p[1..][n - 1..] == p[n..];
      assert At(t, p[..n]) == At(k, p[1..][..n - 1]);
      assert At(t, p) == At(k, p[1..]);
    }
  }
}
