/**
 * Which files a sized row is compared with: the candidate query said over the rows themselves, and
 * what a step that has to look for candidates decides, in every case.
 */
module Twins {
  import opened Wrappers
  import opened Model
  import opened Selection
  import opened StoreSpec
  import opened Pipeline

  // ---------------------------------------------------------------- the candidate query over rows

  /** A row the query may return for row `me`. */
  ghost predicate Admissible(rows: map<RowId, Row>, me: RowId, scope: Scope, settledBeforeNs: int, i: RowId)
    requires me in rows
  {
    && i in rows && i != me
    && rows[i].domain == rows[me].domain && rows[i].size == rows[me].size
    && (rows[i].state == Sized || rows[i].state == Distinct)
    && rows[i].nlink == 1 && rows[i].mtime <= settledBeforeNs
    && (scope.SameOwner? ==> rows[i].uid == rows[me].uid)
    && (scope.SameShare? ==> rows[i].loc.root == rows[me].loc.root)
  }

  /** Rows with a hash come first, then by modification time, first sighting and id. */
  ghost predicate ComesBefore(rows: map<RowId, Row>, i: RowId, j: RowId)
    requires i in rows && j in rows
  {
    var a, b := rows[i], rows[j];
    if a.sparse.None? != b.sparse.None? then a.sparse.Some?
    else if a.mtime != b.mtime then a.mtime < b.mtime
    else if a.firstSeen != b.firstSeen then a.firstSeen < b.firstSeen
    else i.n < j.n
  }

  /** The admissible rows before row `i`. */
  ghost function Ahead(rows: map<RowId, Row>, me: RowId, scope: Scope, settledBeforeNs: int, i: RowId): set<RowId>
    requires me in rows && i in rows
  {
    set j | j in rows && Admissible(rows, me, scope, settledBeforeNs, j) && ComesBefore(rows, j, i)
  }

  /** One of the first `limit` admissible rows. */
  ghost predicate AmongFirst(rows: map<RowId, Row>, me: RowId, scope: Scope, settledBeforeNs: int, limit: nat, i: RowId)
    requires me in rows
  {
    Admissible(rows, me, scope, settledBeforeNs, i) && |Ahead(rows, me, scope, settledBeforeNs, i)| < limit
  }

  ghost function CandidateRanks(rows: map<RowId, Row>, me: RowId, scope: Scope, settledBeforeNs: int)
    : (m: map<RowId, Rank>)
    requires me in rows
    ensures Keyed(m)
  {
    map i | i in rows && IsCandidate(me, rows[me], i, rows[i], scope, settledBeforeNs)
      :: Rank(if rows[i].sparse.None? then 1 else 0, rows[i].mtime, rows[i].firstSeen, i.n)
  }

  lemma RanksAreAdmissible(rows: map<RowId, Row>, me: RowId, scope: Scope, settledBeforeNs: int, i: RowId)
    requires me in rows
    ensures i in CandidateRanks(rows, me, scope, settledBeforeNs) <==> Admissible(rows, me, scope, settledBeforeNs, i)
  {
  }

  lemma EarlierIsAhead(rows: map<RowId, Row>, me: RowId, scope: Scope, settledBeforeNs: int, i: RowId)
    requires me in rows && i in CandidateRanks(rows, me, scope, settledBeforeNs)
    ensures i in rows
    ensures EarlierIn(CandidateRanks(rows, me, scope, settledBeforeNs), i) == Ahead(rows, me, scope, settledBeforeNs, i)
  {
    var m := CandidateRanks(rows, me, scope, settledBeforeNs);
    forall j ensures j in EarlierIn(m, i) <==> j in Ahead(rows, me, scope, settledBeforeNs, i) {
      RanksAreAdmissible(rows, me, scope, settledBeforeNs, j);
    }
  }

  ghost predicate Ascending(rows: map<RowId, Row>, s: seq<RowId>) {
    && (forall a :: 0 <= a < |s| ==> s[a] in rows)
    && (forall a, b :: 0 <= a < b < |s| ==> ComesBefore(rows, s[a], s[b]))
  }

  /** The query answers exactly the first `limit` admissible rows, in order. */
  lemma CandidatesExact(rows: map<RowId, Row>, me: RowId, scope: Scope, settledBeforeNs: int, limit: nat)
    requires me in rows
    ensures var s := Candidates(rows, me, scope, settledBeforeNs, limit);
      && (forall i :: i in s <==> AmongFirst(rows, me, scope, settledBeforeNs, limit, i))
      && NoRepeats(s) && Ascending(rows, s)
  {
    var m := CandidateRanks(rows, me, scope, settledBeforeNs);
    var s := TakeLeast(m, limit);
    assert Candidates(rows, me, scope, settledBeforeNs, limit) == s;
    forall i ensures i in s <==> AmongFirst(rows, me, scope, settledBeforeNs, limit, i) {
      RanksAreAdmissible(rows, me, scope, settledBeforeNs, i);
      if i in m {
        TakenIffFewEarlier(m, limit, i);
        EarlierIsAhead(rows, me, scope, settledBeforeNs, i);
      }
    }
    TakenInOrder(m, limit);
    forall a | 0 <= a < |s| ensures s[a] in rows { assert s[a] in m; }
    forall a, b | 0 <= a < b < |s| ensures ComesBefore(rows, s[a], s[b]) { assert Less(m[s[a]], m[s[b]]); }
  }

  // ---------------------------------------------------------------- files of the size that still settle

  /** Row `i` is a file of the same size that settles, with a date. */
  ghost predicate Settles(rows: map<RowId, Row>, me: RowId, scope: Scope, i: RowId)
    requires me in rows
  {
    && i in rows && i != me && rows[i].state == Settling && rows[i].readyAt.Some?
    && rows[i].domain == rows[me].domain && rows[i].size == rows[me].size
    && (scope.SameOwner? ==> rows[i].uid == rows[me].uid)
    && (scope.SameShare? ==> rows[i].loc.root == rows[me].loc.root)
  }

  /** The step waits if and only if some file of the size is due to settle later, and until the latest such date. */
  lemma WaitsForSettling(c: Ctx, db: Db, id: RowId)
    requires id in db.rows
    ensures var t := StillSettling(c, db, id);
      && (t.Some? <==> exists i :: Settles(db.rows, id, c.scope, i) && db.rows[i].readyAt.value > c.now)
      && (t.Some? ==>
            && (exists i :: Settles(db.rows, id, c.scope, i) && db.rows[i].readyAt == t)
            && (forall i :: Settles(db.rows, id, c.scope, i) ==> db.rows[i].readyAt.value <= t.value))
  {
    var mine := db.rows[id];
    var m := map i | i in db.rows && i != id && db.rows[i].state.Settling? && db.rows[i].readyAt.Some?
                     && db.rows[i].domain == mine.domain && db.rows[i].size == mine.size
                     && InScope(mine, db.rows[i], c.scope)
      :: db.rows[i].readyAt.value;
    forall i ensures i in m <==> Settles(db.rows, id, c.scope, i) {
    }
    assert PendingSameSize(db.rows, id, c.scope) == if m == map[] then None else Some(MaxValue(m));
    if m != map[] {
      var i :| i in m && m[i] == MaxValue(m);
      assert Settles(db.rows, id, c.scope, i);
      forall j | Settles(db.rows, id, c.scope, j) ensures db.rows[j].readyAt.value <= MaxValue(m) { assert j in m; }
    } else {
      forall j ensures !Settles(db.rows, id, c.scope, j) { assert j !in m; }
    }
  }

  // ---------------------------------------------------------------- what the step decides

  /** A sized row with hash `h`, seen as stored, for whose key there is no group. */
  ghost predicate Searches(c: Ctx, e: Env, db: Db, id: RowId, h: Hash) {
    && id in db.rows && db.rows[id].state.Sized? && db.rows[id].sparse == Some(h)
    && e.statx(db.rows[id].loc).Ok? && e.statx(db.rows[id].loc).value.Print() == db.rows[id].Print()
    && forall g :: g in db.groups ==>
         !(db.groups[g].domain == db.rows[id].domain && db.groups[g].size == db.rows[id].size && db.groups[g].hash == h)
  }

  /** No file of the size is due to settle later. */
  ghost predicate NoneSettles(c: Ctx, db: Db, id: RowId)
    requires id in db.rows
  {
    forall i :: Settles(db.rows, id, c.scope, i) ==> db.rows[i].readyAt.value <= c.now
  }

  /** Files count as settled if they were last written `settleDelay` milliseconds ago, unless that overflows. */
  lemma SettledMeansOld(c: Ctx, mtime: int)
    requires I64_MIN <= (c.now - c.settleDelay) * 1_000_000 <= I64_MAX
    ensures mtime <= SettledBefore(c) <==> mtime <= (c.now - c.settleDelay) * 1_000_000
  {
  }

  /** One of the files the row is compared with. */
  ghost predicate Rival(c: Ctx, db: Db, id: RowId, i: RowId)
    requires id in db.rows
  {
    AmongFirst(db.rows, id, c.scope, SettledBefore(c), c.maxSizeGroup, i)
  }

  lemma SearchIs(c: Ctx, e: Env, db: Db, id: RowId, h: Hash)
    requires Searches(c, e, db, id, h)
    ensures Step(c, e, db, id) == match StillSettling(c, db, id)
                                  case Some(until) => Ok(Defer(until))
                                  case None => AmongCandidates(c, e, db, id, h, SettledPeers(c, db, id))
  {
    assert GroupsByKey(db, db.rows[id].domain, db.rows[id].size, h) == {};
  }

  lemma PeersAreCandidates(c: Ctx, db: Db, id: RowId)
    requires id in db.rows
    ensures SettledPeers(c, db, id)
            == Candidates(db.rows, id, c.scope, SettledBefore(c), c.maxSizeGroup)
  {
  }

  lemma RivalsExact(c: Ctx, db: Db, id: RowId)
    requires id in db.rows
    ensures forall i :: i in SettledPeers(c, db, id) <==> Rival(c, db, id, i)
    ensures Ascending(db.rows, SettledPeers(c, db, id))
  {
    PeersAreCandidates(c, db, id);
    CandidatesExact(db.rows, id, c.scope, SettledBefore(c), c.maxSizeGroup);
  }

  /** While a file of the size settles, the row waits for the last of them. */
  lemma SearchWaits(c: Ctx, e: Env, db: Db, id: RowId, h: Hash)
    requires Searches(c, e, db, id, h) && !NoneSettles(c, db, id)
    ensures var s := Step(c, e, db, id);
      && s.Ok? && s.value.Defer? && s.value.until > c.now
      && (exists i :: Settles(db.rows, id, c.scope, i) && db.rows[i].readyAt == Some(s.value.until))
      && (forall i :: Settles(db.rows, id, c.scope, i) ==> db.rows[i].readyAt.value <= s.value.until)
  {
    SearchIs(c, e, db, id, h);
    WaitsForSettling(c, db, id);
  }

  lemma {:induction false} FirstUnhashedIs(rows: map<RowId, Row>, cands: seq<RowId>)
    requires (forall k :: k in cands ==> k in rows) && Ascending(rows, cands)
    ensures var k := FirstUnhashed(rows, cands);
      k.Some? ==> forall j :: j in cands && j != k.value && rows[j].sparse.None? ==> ComesBefore(rows, k.value, j)
  {
    if cands != [] {
      if rows[cands[0]].sparse.None? {
        forall j | j in cands && j != cands[0] ensures ComesBefore(rows, cands[0], j) {
          var b :| 0 <= b < |cands| && cands[b] == j;
        }
      } else {
        FirstUnhashedIs(rows, cands[1..]);
      }
    }
  }

  /** A rival without a hash is read first: the one that comes before all others without one. */
  lemma SearchReads(c: Ctx, e: Env, db: Db, id: RowId, h: Hash)
    requires Searches(c, e, db, id, h) && NoneSettles(c, db, id)
    requires exists k :: Rival(c, db, id, k) && db.rows[k].sparse.None?
    ensures if !c.allowHeavy then Step(c, e, db, id) == Ok(Defer(HeavyLater(c)))
            else exists k :: Rival(c, db, id, k) && db.rows[k].sparse.None?
                             && Step(c, e, db, id) == Backfill(c, e, db, id, k)
                             && forall j :: Rival(c, db, id, j) && j != k && db.rows[j].sparse.None? ==>
                                  ComesBefore(db.rows, k, j)
  {
    SearchIs(c, e, db, id, h);
    WaitsForSettling(c, db, id);
    RivalsExact(c, db, id);
    FirstUnhashedIs(db.rows, SettledPeers(c, db, id));
  }

  /** With every rival hashed: the row is distinct if and only if no rival has its hash. */
  lemma DistinctIffNoTwin(c: Ctx, e: Env, db: Db, id: RowId, h: Hash)
    requires Searches(c, e, db, id, h) && NoneSettles(c, db, id)
    requires forall k :: Rival(c, db, id, k) ==> db.rows[k].sparse.Some?
    ensures Step(c, e, db, id) == Move(id, Sized, Distinct, Ready(None), c.now)
            <==> forall k :: Rival(c, db, id, k) ==> db.rows[k].sparse != Some(h)
  {
    SearchIs(c, e, db, id, h);
    WaitsForSettling(c, db, id);
    RivalsExact(c, db, id);
    var twins := WithHash(db.rows, SettledPeers(c, db, id), h);
    if twins != [] { assert twins[0] in twins; }
  }

  /** Exactly the rivals with the row's hash are taken along, each once; the oldest of them all is the origin. */
  ghost predicate FoundsGroup(c: Ctx, db: Db, id: RowId, h: Hash, t: Transition)
    requires id in db.rows
  {
    && t.group.Some? && t.group.value.Create? && t.group.value.hash == h && t.now == c.now
    && var origin := t.group.value.canonical;
       && (origin == id || Twin(c, db, id, h, origin))
       && origin in db.rows
       && (forall k :: (k == id || Twin(c, db, id, h, k)) && k != origin ==>
             k in db.rows && Less(OriginRank(db.rows[origin], origin), OriginRank(db.rows[k], k)))
       && t.main == Cas(id, Sized, if origin == id then Canonical else Hashed,
                        Ready(if origin == id then None else Some(c.now)))
       && (forall j :: 0 <= j < |t.others| ==>
             && Twin(c, db, id, h, t.others[j].id)
             && var k := t.others[j].id;
                t.others[j] == Cas(k, db.rows[k].state, if k == origin then Canonical else Hashed,
                                   Ready(if k == origin then None else Some(c.now))))
       && (forall k :: Twin(c, db, id, h, k) ==> exists j :: 0 <= j < |t.others| && t.others[j].id == k)
       && DistinctIds(t.others)
  }

  ghost predicate Twin(c: Ctx, db: Db, id: RowId, h: Hash, k: RowId)
    requires id in db.rows
  {
    Rival(c, db, id, k) && db.rows[k].sparse == Some(h)
  }

  /** With every rival hashed, a row with a twin founds a group of all its twins. */
  lemma TwinsAreGrouped(c: Ctx, e: Env, db: Db, id: RowId, h: Hash)
    requires Searches(c, e, db, id, h) && NoneSettles(c, db, id)
    requires forall k :: Rival(c, db, id, k) ==> db.rows[k].sparse.Some?
    requires exists k :: Twin(c, db, id, h, k)
    ensures var s := Step(c, e, db, id);
      s.Ok? && s.value.Commit? && FoundsGroup(c, db, id, h, s.value.t)
  {
    SearchIs(c, e, db, id, h);
    WaitsForSettling(c, db, id);
    RivalsExact(c, db, id);
    var twins := WithHash(db.rows, SettledPeers(c, db, id), h);
    forall k ensures k in twins <==> Twin(c, db, id, h, k) {
    }
    MakesAllTwins(c, db, id, twins, h);
  }

  lemma MovesAreTwins(c: Ctx, rows: map<RowId, Row>, origin: RowId, twins: seq<RowId>)
    requires NoRepeats(twins) && forall t :: t in twins ==> t in rows
    ensures var s := TwinMoves(c, rows, origin, twins);
      && DistinctIds(s)
      && (forall j :: 0 <= j < |s| ==> s[j].id in twins && s[j] == TwinMove(c, rows, origin, s[j].id))
      && (forall k :: k in twins ==> exists j :: 0 <= j < |s| && s[j].id == k)
  {
    var s := TwinMoves(c, rows, origin, twins);
    forall j | 0 <= j < |s| ensures s[j].id == twins[j] { assert s[j] == TwinMove(c, rows, origin, twins[j]); }
    forall k | k in twins ensures exists j :: 0 <= j < |s| && s[j].id == k {
      var j :| 0 <= j < |twins| && twins[j] == k;
      assert s[j].id == k;
    }
  }

  lemma MakesAllTwins(c: Ctx, db: Db, id: RowId, twins: seq<RowId>, h: Hash)
    requires id in db.rows && NoRepeats(twins) && (forall t :: t in twins ==> t in db.rows)
    requires forall k :: k in twins <==> Twin(c, db, id, h, k)
    ensures FoundsGroup(c, db, id, h, MakeGroup(c, db, id, twins, h).value.t)
  {
    MovesAreTwins(c, db.rows, ChooseCanonical(db.rows, id, twins), twins);
    OriginIsOldest(c, db, id, twins, h);
  }

  lemma OriginIsOldest(c: Ctx, db: Db, id: RowId, twins: seq<RowId>, h: Hash)
    requires id in db.rows && (forall t :: t in twins ==> t in db.rows)
    requires forall k :: k in twins <==> Twin(c, db, id, h, k)
    ensures var origin := ChooseCanonical(db.rows, id, twins);
      && origin in db.rows && (origin == id || Twin(c, db, id, h, origin))
      && forall k :: (k == id || Twin(c, db, id, h, k)) && k != origin ==>
           k in db.rows && Less(OriginRank(db.rows[origin], origin), OriginRank(db.rows[k], k))
  {
  }
}
