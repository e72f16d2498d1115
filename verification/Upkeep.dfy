/** The maintenance jobs: a domain rests and wakes, verified rows are queued again, and missing rows age out. */
module Upkeep {
  import opened Wrappers
  import opened Model
  import opened StoreSpec
  import opened OpsSpec
  import opened Operations
  import opened Marking

  // ---------------------------------------------------------------- a domain rests

  ghost predicate InDomain(r: Row, domain: nat) { r.domain == domain && r.state == Hashed }

  /** While a domain is parked no round takes a hashed row of it; every other row is as it was. */
  lemma ParkedDomainRests(db: Db, domain: nat, err: string, now: Ts, later: Ts, heavy: bool, maxWait: int, i: RowId)
    requires i in db.rows
    ensures var parked := Perform(db, ParkDomain(domain, err, now));
      && parked.groups == db.groups && parked.rows.Keys == db.rows.Keys
      && (!InDomain(db.rows[i], domain) || db.rows[i].readyAt.None? ==> parked.rows[i] == db.rows[i])
      && (InDomain(db.rows[i], domain) ==>
            parked.rows[i] == db.rows[i].(readyAt := None, lastError := parked.rows[i].lastError,
                                          updated := parked.rows[i].updated)
            && NextReady(parked.rows, later, heavy, maxWait) != Some(i))
  {
  }

  /** Waking the domain makes every hashed row of it due, and keeps what the rest was for. */
  lemma ParkedDomainWakes(db: Db, domain: nat, err: string, now: Ts, later: Ts, i: RowId)
    requires i in db.rows
    ensures var awake := Perform(Perform(db, ParkDomain(domain, err, now)), UnparkDomain(domain, later));
      && awake.groups == db.groups && awake.rows.Keys == db.rows.Keys
      && awake.rows[i] ==
         if !InDomain(db.rows[i], domain) then db.rows[i]
         else db.rows[i].(readyAt := Some(later), updated := later,
                          lastError := if db.rows[i].readyAt.Some? then Some(err) else db.rows[i].lastError)
  {
  }

  // ---------------------------------------------------------------- verified rows are queued again

  ghost predicate AtOrBelowAny(loc: FileLoc, dirs: seq<FileLoc>) {
    exists j :: 0 <= j < |dirs| && AtOrBelow(loc, dirs[j])
  }

  lemma AnyIsAny(dirs: seq<FileLoc>, loc: FileLoc)
    ensures UnderAny(dirs, loc) <==> AtOrBelowAny(loc, dirs)
  {
    if d :| d in dirs && Under(d, loc) {
      var j :| 0 <= j < |dirs| && dirs[j] == d;
      UnderIffBelow(d, loc);
      assert AtOrBelow(loc, dirs[j]);
    }
    if j :| 0 <= j < |dirs| && AtOrBelow(loc, dirs[j]) {
      UnderIffBelow(dirs[j], loc);
      assert dirs[j] in dirs;
    }
  }

  /** Exactly the verified rows at or component-wise below one of the directories are due as hashed ones. */
  lemma RequeuesExactly(db: Db, dirs: seq<FileLoc>, now: Ts, i: RowId)
    requires i in db.rows
    ensures var after, r := Perform(db, RequeueVerified(dirs, now)), db.rows[i];
      && after.groups == db.groups && after.rows.Keys == db.rows.Keys
      && after.rows[i] == if r.state == Verified && AtOrBelowAny(r.loc, dirs)
                          then r.(state := Hashed, readyAt := Some(now), updated := now) else r
  {
    AnyIsAny(dirs, db.rows[i].loc);
  }

  // ---------------------------------------------------------------- missing rows age out

  /** A missing row of the root that was last written before the cutoff is gone, with all it knew; no other changes. */
  lemma ExpiresExactly(db: Db, root: int, cutoff: Ts, now: Ts, i: RowId)
    requires i in db.rows
    ensures var after, r := Perform(db, ExpirePresence(root, cutoff, now)), db.rows[i];
      && after.groups == db.groups && after.rows.Keys == db.rows.Keys
      && after.rows[i] == if r.loc.root == root && r.state == Missing && r.updated < cutoff
                          then r.(state := Gone, updated := now) else r
  {
  }

  /** The row is gone, and was last written longer ago than the retention. */
  ghost predicate Aged(r: Row, now: Ts, retention: int) { r.state == Gone && r.updated < Clamp(now - retention) }

  /** Exactly the aged rows are deleted, and exactly the pointers to them are cleared. */
  lemma PurgesExactly(db: Db, now: Ts, retention: int)
    ensures var after := Perform(db, PurgeGone(now, retention));
      && (forall i :: i in after.rows <==> i in db.rows && !Aged(db.rows[i], now, retention))
      && (forall i :: i in after.rows ==> after.rows[i] == db.rows[i])
      && after.groups.Keys == db.groups.Keys
      && forall g :: g in db.groups ==>
           after.groups[g] ==
             if db.groups[g].canonical.Some? && db.groups[g].canonical.value in db.rows
                && Aged(db.rows[db.groups[g].canonical.value], now, retention)
             then db.groups[g].(canonical := None) else db.groups[g]
  {
  }
}
