/**
 * `ORDER BY ... LIMIT` over a table: the rows that a query selects are a map from
 * row id to sort key, and the query result is the least key first.
 */
module Selection {

  /** The integer primary key of a table. */
  datatype Id = Id(n: int)

  /** A sort key. The last component is the row id, so keys of a table are distinct. */
  datatype Rank = Rank(a: int, b: int, c: int, id: int)

  predicate Less(x: Rank, y: Rank) {
    || x.a < y.a
    || (x.a == y.a && x.b < y.b)
    || (x.a == y.a && x.b == y.b && x.c < y.c)
    || (x.a == y.a && x.b == y.b && x.c == y.c && x.id < y.id)
  }

  ghost predicate Keyed(m: map<Id, Rank>) {
    forall k :: k in m ==> m[k].id == k.n
  }

  ghost predicate IsLeast(m: map<Id, Rank>, k: Id) {
    k in m && forall j :: j in m && j != k ==> Less(m[k], m[j])
  }

  lemma SomeElement<T>(s: set<T>) returns (x: T)
    requires s != {}
    ensures x in s
  {
    x :| x in s;
  }

  lemma LeastExists(m: map<Id, Rank>)
    requires m != map[] && Keyed(m)
    ensures exists k :: IsLeast(m, k)
    decreases |m|
  {
    var i :| i in m;
    var rest := m - {i};
    assert m.Keys == rest.Keys + {i};
    var k := i;
    if rest != map[] {
      LeastExists(rest);
      var r :| IsLeast(rest, r);
      k := if Less(m[i], m[r]) then i else r;
    }
    forall j | j in m && j != k ensures Less(m[k], m[j]) {
      if j != i { assert j in rest; }
    }
    assert IsLeast(m, k);
  }

  /** The row that `ORDER BY rank LIMIT 1` returns. */
  function Least(m: map<Id, Rank>): (k: Id)
    requires m != map[] && Keyed(m)
    ensures IsLeast(m, k)
  {
    assert exists k :: k in m && forall j :: j in m && j != k ==> Less(m[k], m[j]) by {
      LeastExists(m);
      var w :| IsLeast(m, w);
      assert w in m && forall j :: j in m && j != w ==> Less(m[w], m[j]);
    }
    var k :| k in m && forall j :: j in m && j != k ==> Less(m[k], m[j]);
    k
  }

  ghost predicate NoRepeats(s: seq<Id>) {
    forall i, j :: 0 <= i < j < |s| ==> s[i] != s[j]
  }

  /** The rows that `ORDER BY rank LIMIT limit` returns, in order. */
  function TakeLeast(m: map<Id, Rank>, limit: nat): (s: seq<Id>)
    requires Keyed(m)
    ensures forall k :: k in s ==> k in m
    ensures NoRepeats(s)
    ensures |s| <= limit && (limit > 0 && m != map[] ==> s != [])
    ensures s != [] ==> IsLeast(m, s[0])
    decreases limit
  {
    if limit == 0 || m == map[] then []
    else
      var k := Least(m);
      var rest := m - {k};
      [k] + TakeLeast(rest, limit - 1)
  }

  /** The rows before row `k`. */
  ghost function EarlierIn(m: map<Id, Rank>, k: Id): set<Id>
    requires k in m
  {
    set j | j in m && Less(m[j], m[k])
  }

  lemma LessTotal(x: Rank, y: Rank)
    requires x.id != y.id
    ensures Less(x, y) <==> !Less(y, x)
  {
  }

  lemma EarlierThanLeast(m: map<Id, Rank>, k: Id)
    requires Keyed(m) && IsLeast(m, k)
    ensures EarlierIn(m, k) == {}
  {
    forall j | j in m && j != k ensures !Less(m[j], m[k]) { LessTotal(m[j], m[k]); }
  }

  lemma EarlierWithoutLeast(m: map<Id, Rank>, least: Id, k: Id)
    requires Keyed(m) && IsLeast(m, least) && k in m && k != least
    ensures |EarlierIn(m, k)| == 1 + |EarlierIn(m - {least}, k)|
  {
    assert EarlierIn(m, k) == {least} + EarlierIn(m - {least}, k);
  }

  /** A row is taken if and only if fewer than `limit` rows come before it. */
  lemma {:induction false} TakenIffFewEarlier(m: map<Id, Rank>, limit: nat, k: Id)
    requires Keyed(m) && k in m
    ensures k in TakeLeast(m, limit) <==> |EarlierIn(m, k)| < limit
    decreases limit
  {
    if limit > 0 {
      var least := Least(m);
      var rest := m - {least};
      assert TakeLeast(m, limit) == [least] + TakeLeast(rest, limit - 1);
      if k == least {
        EarlierThanLeast(m, k);
      } else {
        EarlierWithoutLeast(m, least, k);
        TakenIffFewEarlier(rest, limit - 1, k);
      }
    }
  }

  ghost predicate InOrder(m: map<Id, Rank>, s: seq<Id>) {
    && (forall a :: 0 <= a < |s| ==> s[a] in m)
    && (forall a, b :: 0 <= a < b < |s| ==> Less(m[s[a]], m[s[b]]))
  }

  lemma LeastInFront(m: map<Id, Rank>, least: Id, t: seq<Id>)
    requires IsLeast(m, least) && InOrder(m - {least}, t)
    ensures InOrder(m, [least] + t)
  {
    var s, rest := [least] + t, m - {least};
    forall a | 0 <= a < |t| ensures t[a] in m && t[a] != least && rest[t[a]] == m[t[a]] { assert t[a] in rest; }
    forall a, b | 0 <= a < b < |s| ensures Less(m[s[a]], m[s[b]]) {
      assert s[b] == t[b - 1];
      if a > 0 { assert s[a] == t[a - 1]; }
    }
  }

  /** The rows taken come in order. */
  lemma {:induction false} TakenInOrder(m: map<Id, Rank>, limit: nat)
    requires Keyed(m)
    ensures InOrder(m, TakeLeast(m, limit))
    decreases limit
  {
    if limit > 0 && m != map[] {
      var least := Least(m);
      TakenInOrder(m - {least}, limit - 1);
      LeastInFront(m, least, TakeLeast(m - {least}, limit - 1));
    }
  }

  /** `MIN(id)`. */
  function MinId(s: set<Id>): (m: Id)
    requires s != {}
    ensures m in s && forall x :: x in s ==> m.n <= x.n
  {
    var ranks := map x | x in s :: Rank(0, 0, 0, x.n);
    assert ranks.Keys == s;
    Least(ranks)
  }

  function MaxId(s: set<Id>): (m: Id)
    requires s != {}
    ensures m in s && forall x :: x in s ==> x.n <= m.n
  {
    var ranks := map x | x in s :: Rank(-x.n, 0, 0, x.n);
    assert ranks.Keys == s;
    Least(ranks)
  }

  /** The id SQLite gives to the next row of a table without AUTOINCREMENT. */
  function NextId(ids: set<Id>): (n: Id)
    ensures n !in ids && forall i :: i in ids ==> i.n < n.n
  {
    if ids == {} then Id(1) else Id(MaxId(ids).n + 1)
  }

  /** `MAX` of an integer column, over the rows of a table that `value` covers. */
  function MaxValue(value: map<Id, int>): (m: int)
    requires value != map[]
    ensures exists i :: i in value && value[i] == m
    ensures forall i :: i in value ==> value[i] <= m
  {
    var ranks := map i | i in value :: Rank(-value[i], 0, 0, i.n);
    assert ranks.Keys == value.Keys;
    value[Least(ranks)]
  }
}
