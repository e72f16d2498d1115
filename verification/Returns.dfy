/** A presence walk brings missing files back: exactly the missing rows that an accepted batch sees are upserted. */
module Returns {
  import opened Wrappers
  import opened Model
  import opened StoreSpec
  import opened OpsSpec
  import opened Presence
  import opened Arrival

  /** The file as the walk saw it; what the walk does not look at is taken from the row. */
  ghost function AsSighted(r: Row, s: Sighting): Identity {
    Identity(r.key, r.domain, s.fp.size, s.fp.mtime, s.fp.ctime, r.nlink, r.uid, r.mode)
  }

  /** The row is that of sighting `s`, and missing. */
  ghost predicate BringsBack(db: Db, i: RowId, s: Sighting) {
    WhoseKey(db.rows, i, s.key) && db.rows[i].state == Missing
  }

  /** What one sighting does to row `i`. */
  ghost predicate SightedOrKept(kinds: map<int, RootKind>, db: Db, after: Db, s: Sighting, now: Ts, i: RowId)
    requires i in db.rows && i in after.rows
  {
    && after.rows[i].key == db.rows[i].key
    && if BringsBack(db, i, s) then
         && s.loc.root in kinds
         && IsSeenAgain(db.rows[i], after.rows[i], AsSighted(db.rows[i], s), s.loc, now, now, kinds[s.loc.root])
       else after.rows[i] == db.rows[i]
  }

  lemma NobodyMissing(kinds: map<int, RootKind>, db: Db, s: Sighting, now: Ts)
    requires UniqueKeys(db.rows) && forall f :: !BringsBack(db, f, s)
    ensures SeeOne(kinds, db, s, now) == Some(db)
  {
    var f := FindByKey(db.rows, s.key);
    if f.Some? { assert WhoseKey(db.rows, f.value, s.key) && !BringsBack(db, f.value, s); }
  }

  lemma SomebodyMissing(kinds: map<int, RootKind>, db: Db, s: Sighting, now: Ts, f: RowId)
    requires BringsBack(db, f, s)
    ensures var r := db.rows[f];
      SeeOne(kinds, db, s, now) ==
      if s.loc.root !in kinds then None
      else Some(Upsert(db, AsSighted(r, s), s.loc, now, r.priority, now, kinds[s.loc.root]))
  {
    FoundByKey(db.rows, f, s.key);
  }

  lemma OneSighting(kinds: map<int, RootKind>, db: Db, after: Db, s: Sighting, now: Ts)
    requires UniqueKeys(db.rows) && SeeOne(kinds, db, s, now) == Some(after)
    ensures after.rows.Keys == db.rows.Keys
    ensures forall i :: i in db.rows ==> SightedOrKept(kinds, db, after, s, now, i)
  {
    if f :| BringsBack(db, f, s) {
      SomebodyMissing(kinds, db, s, now, f);
      FoundByKey(db.rows, f, s.key);
      UpsertOfKnown(db, db, f, AsSighted(db.rows[f], s), s.loc, now, db.rows[f].priority, now, kinds[s.loc.root],
                    after);
      forall i | i in db.rows ensures SightedOrKept(kinds, db, after, s, now, i) {
        if i != f { assert !BringsBack(db, i, s); }
      }
    } else {
      NobodyMissing(kinds, db, s, now);
    }
  }

  /** The only sighting of the row's file in the batch. */
  ghost predicate OnlySighting(batch: seq<Sighting>, j: nat, key: FileKey) {
    j < |batch| && batch[j].key == key && forall x :: 0 <= x < |batch| && x != j ==> batch[x].key != key
  }

  ghost predicate NotSighted(batch: seq<Sighting>, key: FileKey) {
    forall x :: 0 <= x < |batch| ==> batch[x].key != key
  }

  lemma KeysKept(kinds: map<int, RootKind>, db: Db, after: Db, s: Sighting, now: Ts)
    requires UniqueKeys(db.rows) && SeeOne(kinds, db, s, now) == Some(after)
    ensures UniqueKeys(after.rows)
  {
    OneSighting(kinds, db, after, s, now);
    forall i, j | i in after.rows && j in after.rows && after.rows[i].key == after.rows[j].key ensures i == j {
      assert SightedOrKept(kinds, db, after, s, now, i) && SightedOrKept(kinds, db, after, s, now, j);
    }
  }

  /** A row that is live, or whose file the batch does not name, stays as it is. */
  lemma {:induction false} OthersKept(kinds: map<int, RootKind>, db: Db, batch: seq<Sighting>, now: Ts, i: RowId)
    requires UniqueKeys(db.rows) && i in db.rows && SeeAll(kinds, db, batch, now).Some?
    requires db.rows[i].state != Missing || NotSighted(batch, db.rows[i].key)
    ensures var after := SeeAll(kinds, db, batch, now).value; i in after.rows && after.rows[i] == db.rows[i]
    decreases |batch|
  {
    if batch != [] {
      var next := SeeOne(kinds, db, batch[0], now).value;
      OneSighting(kinds, db, next, batch[0], now);
      KeysKept(kinds, db, next, batch[0], now);
      assert SightedOrKept(kinds, db, next, batch[0], now, i);
      OthersKept(kinds, next, batch[1..], now, i);
    }
  }

  /**
   * A missing row whose file an accepted batch names once is seen again at the path of the sighting: with its old
   * state and findings if the file is unchanged, to be settled anew if not.
   */
  lemma {:induction false} SightedReturns(kinds: map<int, RootKind>, db: Db, batch: seq<Sighting>, now: Ts, i: RowId,
                                          j: nat)
    requires UniqueKeys(db.rows) && i in db.rows && db.rows[i].state == Missing
    requires OnlySighting(batch, j, db.rows[i].key) && SeeAll(kinds, db, batch, now).Some?
    ensures batch[j].loc.root in kinds
    ensures var after, s := SeeAll(kinds, db, batch, now).value, batch[j];
      i in after.rows
      && IsSeenAgain(db.rows[i], after.rows[i], AsSighted(db.rows[i], s), s.loc, now, now, kinds[s.loc.root])
    decreases |batch|
  {
    var next := SeeOne(kinds, db, batch[0], now).value;
    OneSighting(kinds, db, next, batch[0], now);
    KeysKept(kinds, db, next, batch[0], now);
    assert SightedOrKept(kinds, db, next, batch[0], now, i);
    if j == 0 {
      assert BringsBack(db, i, batch[0]);
      assert NotSighted(batch[1..], next.rows[i].key);
      OthersKept(kinds, next, batch[1..], now, i);
    } else {
      SightedReturns(kinds, next, batch[1..], now, i, j - 1);
    }
  }

  /** The store refuses a batch exactly if it would bring back a file below a root that it does not know. */
  lemma {:induction false} RefusedIffUnknownRoot(kinds: map<int, RootKind>, db: Db, batch: seq<Sighting>, now: Ts)
    requires UniqueKeys(db.rows)
    requires forall x, y :: 0 <= x < y < |batch| ==> batch[x].key != batch[y].key
    ensures SeeAll(kinds, db, batch, now).None? <==>
      exists j, i :: 0 <= j < |batch| && BringsBack(db, i, batch[j]) && batch[j].loc.root !in kinds
    decreases |batch|
  {
    if batch != [] {
      if f :| BringsBack(db, f, batch[0]) { SomebodyMissing(kinds, db, batch[0], now, f); }
      else { NobodyMissing(kinds, db, batch[0], now); }
      if SeeOne(kinds, db, batch[0], now).Some? { RestRefused(kinds, db, batch, now); }
      else { FirstRefused(kinds, db, batch, now); }
    }
  }

  lemma FirstRefused(kinds: map<int, RootKind>, db: Db, batch: seq<Sighting>, now: Ts)
    requires UniqueKeys(db.rows) && batch != [] && SeeOne(kinds, db, batch[0], now).None?
    ensures exists j, i :: 0 <= j < |batch| && BringsBack(db, i, batch[j]) && batch[j].loc.root !in kinds
  {
    var f := FindByKey(db.rows, batch[0].key).value;
    assert BringsBack(db, f, batch[0]);
  }

  lemma RestRefused(kinds: map<int, RootKind>, db: Db, batch: seq<Sighting>, now: Ts)
    requires UniqueKeys(db.rows) && batch != [] && SeeOne(kinds, db, batch[0], now).Some?
    requires forall x, y :: 0 <= x < y < |batch| ==> batch[x].key != batch[y].key
    ensures SeeAll(kinds, db, batch, now).None? <==>
      exists j, i :: 0 <= j < |batch| && BringsBack(db, i, batch[j]) && batch[j].loc.root !in kinds
    decreases |batch|, 0
  {
    var next, rest := SeeOne(kinds, db, batch[0], now).value, batch[1..];
    OneSighting(kinds, db, next, batch[0], now);
    KeysKept(kinds, db, next, batch[0], now);
    RefusedIffUnknownRoot(kinds, next, rest, now);
    forall j, i | 0 < j < |batch| ensures BringsBack(next, i, batch[j]) <==> BringsBack(db, i, batch[j]) {
      OtherSighting(kinds, db, next, batch[0], now, batch[j], i);
    }
    if j, i :| 0 <= j < |batch| && BringsBack(db, i, batch[j]) && batch[j].loc.root !in kinds {
      if j == 0 { SomebodyMissing(kinds, db, batch[0], now, i); }
      assert BringsBack(next, i, rest[j - 1]);
    }
    if j, i :| 0 <= j < |rest| && BringsBack(next, i, rest[j]) && rest[j].loc.root !in kinds {
      assert BringsBack(db, i, batch[j + 1]);
    }
  }

  /** A sighting of another file does not change who is missing. */
  lemma OtherSighting(kinds: map<int, RootKind>, db: Db, next: Db, s: Sighting, now: Ts, t: Sighting, i: RowId)
    requires UniqueKeys(db.rows) && SeeOne(kinds, db, s, now) == Some(next) && t.key != s.key
    ensures BringsBack(next, i, t) <==> BringsBack(db, i, t)
  {
    OneSighting(kinds, db, next, s, now);
    forall f | f in db.rows ensures next.rows[f].key == db.rows[f].key {
      assert SightedOrKept(kinds, db, next, s, now, f);
    }
    if i in db.rows { assert SightedOrKept(kinds, db, next, s, now, i); }
  }
}
