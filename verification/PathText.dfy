/**
 * Paths as the text the tables store, and the range test that stands for
 * "below this directory" in SQL.
 */
module PathText {

  /** The order of SQLite's BINARY collation. */
  predicate Before(a: string, b: string) {
    b != "" && (a == "" || a[0] < b[0] || (a[0] == b[0] && Before(a[1..], b[1..])))
  }

  predicate AtMost(a: string, b: string) { a == b || Before(a, b) }

  /** `:dir = ''`, or `rel_path = :dir OR (rel_path >= :dir || '/' AND rel_path < :dir || '0')`. */
  predicate SqlUnder(dir: string, rel: string) {
    dir == "" || rel == dir || (AtMost(dir + "/", rel) && Before(rel, dir + "0"))
  }

  /** `trim_end_matches('/')`. */
  function Trim(s: string): string {
    if s != "" && s[|s| - 1] == '/' then Trim(s[..|s| - 1]) else s
  }

  /** Exactly the slashes at the end go. */
  lemma {:induction false} TrimmedExactly(s: string)
    ensures var t := Trim(s);
      && t <= s && (t == "" || t[|t| - 1] != '/')
      && forall i :: |t| <= i < |s| ==> s[i] == '/'
    decreases |s|
  {
    if s != "" && s[|s| - 1] == '/' { TrimmedExactly(s[..|s| - 1]); }
  }

  /** The pieces between slashes. */
  function Split(s: string): (cs: seq<string>)
    ensures cs != []
  {
    if s == "" then [""]
    else if s[0] == '/' then [""] + Split(s[1..])
    else
      var rest := Split(s[1..]);
      [[s[0]] + rest[0]] + rest[1..]
  }

  /** The components of a path; the root of a share is the empty text. */
  function Components(s: string): seq<string> {
    if s == "" then [] else Split(s)
  }

  function Join(cs: seq<string>): string
    requires cs != []
  {
    if |cs| == 1 then cs[0] else cs[0] + "/" + Join(cs[1..])
  }

  lemma {:induction false} JoinSplit(s: string)
    ensures Join(Split(s)) == s
  {
    if s != "" {
      var rest := Split(s[1..]);
      JoinSplit(s[1..]);
      if s[0] == '/' {
        assert ([""] + rest)[1..] == rest;
      } else if |rest| > 1 {
        assert ([[s[0]] + rest[0]] + rest[1..])[1..] == rest[1..];
      }
    }
  }

  /** The pieces when one more character comes first. */
  function Prepend(c: char, cs: seq<string>): seq<string>
    requires cs != []
  {
    if c == '/' then [""] + cs else [[c] + cs[0]] + cs[1..]
  }

  lemma SplitHead(c: char, s: string)
    ensures Split([c] + s) == Prepend(c, Split(s))
  {
    assert ([c] + s)[1..] == s;
  }

  lemma PrependConcat(c: char, xs: seq<string>, ys: seq<string>)
    requires xs != []
    ensures Prepend(c, xs + ys) == Prepend(c, xs) + ys
  {
    assert (xs + ys)[0] == xs[0] && (xs + ys)[1..] == xs[1..] + ys;
  }

  lemma HeadOfConcat(a: string, b: string)
    requires a != ""
    ensures var ab := a + "/" + b; ab != "" && ab[0] == a[0] && ab[1..] == a[1..] + "/" + b
  {
  }

  lemma {:induction false} SplitConcat(a: string, b: string)
    ensures Split(a + "/" + b) == Split(a) + Split(b)
    decreases |a|
  {
    if a == "" {
      assert (a + "/" + b)[1..] == b;
    } else {
      var rest := a[1..];
      HeadOfConcat(a, b);
      assert a == [a[0]] + rest && a + "/" + b == [a[0]] + (rest + "/" + b);
      SplitConcat(rest, b);
      SplitHead(a[0], rest);
      SplitHead(a[0], rest + "/" + b);
      PrependConcat(a[0], Split(rest), Split(b));
    }
  }

  lemma {:induction false} JoinConcat(a: seq<string>, b: seq<string>)
    requires a != [] && b != []
    ensures Join(a + b) == Join(a) + "/" + Join(b)
  {
    assert (a + b)[1..] == a[1..] + b;
    if |a| > 1 {
      JoinConcat(a[1..], b);
    } else {
      assert a[1..] + b == b;
    }
  }

  lemma SlashRange(rel: string)
    ensures (AtMost("/", rel) && Before(rel, "0")) <==> "/" <= rel
  {
    assert '0' as int == '/' as int + 1;
    assert "/"[1..] == "" && "0"[1..] == "";
    if rel != "" {
      assert rel == [rel[0]] + rel[1..];
      assert Before("/", rel) <==> '/' < rel[0] || ('/' == rel[0] && Before("", rel[1..]));
      assert Before("", rel[1..]) <==> rel[1..] != "";
      assert Before(rel, "0") <==> rel[0] < '0' || (rel[0] == '0' && Before(rel[1..], ""));
    }
  }

  /** The half-open range from `dir/` to `dir0` holds exactly the texts that begin with `dir/`. */
  lemma {:induction false} RangeIsPrefix(dir: string, rel: string)
    ensures (AtMost(dir + "/", rel) && Before(rel, dir + "0")) <==> dir + "/" <= rel
  {
    if dir == "" {
      assert dir + "/" == "/" && dir + "0" == "0";
      SlashRange(rel);
    } else if rel != "" && rel[0] == dir[0] {
      RangeIsPrefix(dir[1..], rel[1..]);
      assert (dir + "/")[1..] == dir[1..] + "/" && (dir + "0")[1..] == dir[1..] + "0";
      assert dir + "/" == [dir[0]] + (dir[1..] + "/");
      assert rel == [rel[0]] + rel[1..];
    }
  }

  lemma PrefixIsBelow(dir: string, rel: string)
    requires dir + "/" <= rel
    ensures Split(dir) <= Split(rel)
  {
    var tail := rel[|dir| + 1..];
    assert rel == dir + "/" + tail;
    SplitConcat(dir, tail);
  }

  lemma BelowIsPrefix(dir: string, rel: string)
    requires Split(dir) <= Split(rel)
    ensures rel == dir || dir + "/" <= rel
  {
    var d, r := Split(dir), Split(rel);
    JoinSplit(dir);
    JoinSplit(rel);
    var tail := r[|d|..];
    assert r == d + tail;
    if tail == [] { assert r == d; } else { JoinConcat(d, tail); }
  }

  /** The SQL test holds exactly for the directory and everything component-wise below it. */
  lemma SqlUnderIsUnder(dir: string, rel: string)
    ensures SqlUnder(dir, rel) <==> Components(dir) <= Components(rel)
  {
    if dir != "" {
      RangeIsPrefix(dir, rel);
      if dir + "/" <= rel { PrefixIsBelow(dir, rel); }
      if Components(dir) <= Components(rel) { BelowIsPrefix(dir, rel); }
    }
  }

  /** `rename_prefix`: the new text of a row below the old directory. */
  function Moved(dir: string, newDir: string, rel: string): string
    requires SqlUnder(dir, rel)
  {
    if rel == dir && dir != "" then newDir
    else if dir == "" then (if newDir == "" then rel else newDir + "/" + rel)
    else
      RangeIsPrefix(dir, rel);
      if newDir == "" then rel[|dir| + 1..] else newDir + rel[|dir|..]
  }

  /** The path of a file below the root of a share. */
  predicate NamesFile(rel: string) { rel != "" && rel[|rel| - 1] != '/' }

  /** A path below a directory, which may be the root of the share. */
  function Below(dir: string, tail: string): string {
    if dir == "" then tail else dir + "/" + tail
  }

  lemma BelowComponents(dir: string, tail: string)
    requires tail != ""
    ensures Components(Below(dir, tail)) == Components(dir) + Components(tail)
  {
    if dir == "" { assert [] + Split(tail) == Split(tail); } else { SplitConcat(dir, tail); }
  }

  lemma MovedBelow(dir: string, newDir: string, tail: string)
    requires dir != "" && tail != "" && SqlUnder(dir, Below(dir, tail))
    ensures Moved(dir, newDir, Below(dir, tail)) == Below(newDir, tail)
  {
    var rel := dir + "/" + tail;
    assert rel[|dir|..] == "/" + tail && rel[|dir| + 1..] == tail;
    if newDir != "" { assert newDir + ("/" + tail) == newDir + "/" + tail; }
  }

  lemma UnderIsBelow(dir: string, rel: string) returns (tail: string)
    requires dir != "" && rel != dir && SqlUnder(dir, rel) && NamesFile(rel)
    ensures tail != "" && rel == Below(dir, tail)
  {
    RangeIsPrefix(dir, rel);
    tail := rel[|dir| + 1..];
    assert rel[|rel| - 1] != '/';
  }

  /** A moved row keeps what lay below the old directory and gets the new one in front. */
  lemma MovedKeepsRemainder(dir: string, newDir: string, rel: string)
    requires SqlUnder(dir, rel) && NamesFile(rel)
    ensures Components(dir) <= Components(rel)
    ensures Components(Moved(dir, newDir, rel)) == Components(newDir) + Components(rel)[|Components(dir)|..]
  {
    if dir == "" {
      if newDir != "" { SplitConcat(newDir, rel); }
    } else if rel != dir {
      var tail := UnderIsBelow(dir, rel);
      BelowComponents(dir, tail);
      BelowComponents(newDir, tail);
      MovedBelow(dir, newDir, tail);
      assert (Components(dir) + Components(tail))[|Components(dir)|..] == Components(tail);
    }
  }
}
