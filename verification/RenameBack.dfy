/**
 * Renaming a directory: what it takes with it, when renaming back restores every row,
 * and when it leaves at most one live row a path.
 */
module RenameBack {
  import opened Model
  import opened OpsSpec
  import opened PathText
  import opened LivePath

  /** The one path whose text cannot be told from the root's after the move. */
  predicate Collapses(dir: string, newDir: string, rel: string) {
    dir != "" && newDir == "" && rel == dir
  }

  /** Moving there and back gives the path back, except where it collapses into the root. */
  lemma MovedBack(dir: string, newDir: string, rel: string)
    requires SqlUnder(dir, rel) && (dir == "" ==> rel != "")
    ensures SqlUnder(newDir, Moved(dir, newDir, rel))
    ensures Moved(newDir, dir, Moved(dir, newDir, rel)) == rel <==> !Collapses(dir, newDir, rel)
  {
    var there := Moved(dir, newDir, rel);
    if dir == "" {
      if newDir != "" {
        RangeIsPrefix(newDir, there);
        assert there[|newDir| + 1..] == rel;
      }
    } else if rel == dir {
    } else {
      RangeIsPrefix(dir, rel);
      assert rel == dir + "/" + rel[|dir| + 1..];
      if newDir != "" {
        assert there == newDir + "/" + rel[|dir| + 1..];
        RangeIsPrefix(newDir, there);
        assert there[|newDir|..] == rel[|dir|..];
      }
    }
  }

  /** A row's path is that of a file, never the root itself. */
  ghost predicate FilePaths(rows: map<RowId, Row>) {
    forall i :: i in rows ==> rows[i].loc.rel != ""
  }

  /** Up to the date of the last write. */
  ghost predicate SameButDate(r: Row, s: Row) {
    r == s.(updated := r.updated)
  }

  /** Row `i` comes back: it moves and its path does not collapse, or nothing happens to it. */
  ghost predicate ComesBack(r: Row, from: FileLoc, to: FileLoc) {
    if Under(from, r.loc) then !Collapses(Trim(from.rel), Trim(to.rel), r.loc.rel) else !Under(to, r.loc)
  }

  lemma RowBack(r: Row, from: FileLoc, to: FileLoc, now: Ts, later: Ts)
    requires r.loc.rel != ""
    ensures SameButDate(RenamePrefixRow(RenamePrefixRow(r, from, to, now), to, from, later), r)
            <==> ComesBack(r, from, to)
  {
    var a, b := Trim(from.rel), Trim(to.rel);
    if Under(from, r.loc) {
      MovedBack(a, b, r.loc.rel);
    } else if Under(to, r.loc) {
      MovedBack(b, a, r.loc.rel);
      var back := RenamePrefixRow(r, to, from, later);
      assert Under(from, back.loc);
    }
  }

  /**
   * Renaming a directory and renaming it back restores every row but its date, if and only if
   * nothing lay under the target already and no row sits at a path that collapses into the root.
   */
  lemma RenameBackRestores(rows: map<RowId, Row>, from: FileLoc, to: FileLoc, now: Ts, later: Ts)
    requires FilePaths(rows)
    ensures
      (forall i :: i in rows ==>
         SameButDate(RenamePrefix(RenamePrefix(rows, from, to, now), to, from, later)[i], rows[i]))
      <==> (forall i :: i in rows ==> ComesBack(rows[i], from, to))
  {
    var back := RenamePrefix(RenamePrefix(rows, from, to, now), to, from, later);
    forall i | i in rows ensures SameButDate(back[i], rows[i]) <==> ComesBack(rows[i], from, to) {
      RowBack(rows[i], from, to, now, later);
    }
  }

  /** Exactly the rows component-wise below the directory move, with their remainder. */
  lemma MovesExactlyTheSubtree(rows: map<RowId, Row>, from: FileLoc, to: FileLoc, now: Ts, i: RowId)
    requires i in rows && NamesFile(rows[i].loc.rel)
    ensures var old_, new_ := rows[i].loc, RenamePrefix(rows, from, to, now)[i].loc;
      if old_.root == from.root && Components(Trim(from.rel)) <= Components(old_.rel)
      then new_.root == to.root
           && Components(new_.rel) == Components(Trim(to.rel)) + Components(old_.rel)[|Components(Trim(from.rel))|..]
      else new_ == old_
  {
    var old_ := rows[i].loc;
    SqlUnderIsUnder(Trim(from.rel), old_.rel);
    if Under(from, old_) { MovedKeepsRemainder(Trim(from.rel), Trim(to.rel), old_.rel); }
  }

  // ---------------------------------------------------------------- one live row a path

  /** A live row that stays is where a live row that moves arrives. */
  ghost predicate Collides(rows: map<RowId, Row>, from: FileLoc, to: FileLoc, i: RowId, j: RowId) {
    && i in rows && j in rows && rows[i].Live() && rows[j].Live()
    && Under(from, rows[i].loc) && !Under(from, rows[j].loc)
    && rows[j].loc == FileLoc(to.root, Moved(Trim(from.rel), Trim(to.rel), rows[i].loc.rel))
  }

  lemma MovedApart(from: FileLoc, to: FileLoc, a: FileLoc, b: FileLoc)
    requires Under(from, a) && Under(from, b) && a != b && NamesFile(a.rel) && NamesFile(b.rel)
    ensures Moved(Trim(from.rel), Trim(to.rel), a.rel) != Moved(Trim(from.rel), Trim(to.rel), b.rel)
  {
    var d, e := Trim(from.rel), Trim(to.rel);
    MovedBack(d, e, a.rel);
    MovedBack(d, e, b.rel);
    if Collapses(d, e, a.rel) != Collapses(d, e, b.rel) {
      RangeIsPrefix(d, a.rel);
      RangeIsPrefix(d, b.rel);
    }
  }

  /** A directory rename keeps one live row a path if and only if no moved row lands on a row that stays. */
  lemma DirRenameTidyIff(rows: map<RowId, Row>, from: FileLoc, to: FileLoc, now: Ts)
    requires OneLive(rows) && forall i :: i in rows ==> NamesFile(rows[i].loc.rel)
    ensures OneLive(RenamePrefix(rows, from, to, now)) <==> forall i, j :: !Collides(rows, from, to, i, j)
  {
    var after := RenamePrefix(rows, from, to, now);
    if i, j :| Collides(rows, from, to, i, j) {
      assert after[i].loc == after[j].loc && after[i].Live() && after[j].Live();
    }
    if forall i, j :: !Collides(rows, from, to, i, j) {
      forall i, j | i in after && j in after && after[i].Live() && after[j].Live() && i != j
        ensures after[i].loc != after[j].loc
      {
        assert !Collides(rows, from, to, i, j) && !Collides(rows, from, to, j, i);
        if Under(from, rows[i].loc) && Under(from, rows[j].loc) { MovedApart(from, to, rows[i].loc, rows[j].loc); }
      }
    }
  }
}
