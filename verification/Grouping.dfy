/** Which rows rely on a content group of their key, and that there is one. */
module Grouping {
  import opened Wrappers
  import opened Model
  import opened Selection
  import opened StoreSpec
  import opened Rules

  ghost predicate Grouped(db: Db, r: Row) {
    r.sparse.Some? && GroupsByKey(db, r.domain, r.size, r.sparse.value) != {}
  }

  /** A row waiting for verification, one that can be put back to it, or one that was there when it vanished. */
  ghost predicate NeedsGroup(r: Row) {
    || r.state.Hashed? || r.state.Verified?
    || (r.state.Missing? && (r.prev == Some(Hashed) || r.prev == Some(Verified)))
  }

  /** Every such row has a hash, and a group exists for its key. */
  ghost predicate HashedOk(db: Db) {
    forall i :: i in db.rows && NeedsGroup(db.rows[i]) ==> Grouped(db, db.rows[i])
  }

  ghost predicate GroupsGrow(db: Db, db': Db) {
    forall g :: g in db.groups ==>
      g in db'.groups && KeyedAs(db'.groups[g], db.groups[g].domain, db.groups[g].size, db.groups[g].hash)
  }

  lemma GroupedStays(db: Db, db': Db, r: Row)
    requires GroupsGrow(db, db') && Grouped(db, r)
    ensures Grouped(db', r)
  {
    var g := SomeElement(GroupsByKey(db, r.domain, r.size, r.sparse.value));
    assert g in GroupsByKey(db', r.domain, r.size, r.sparse.value);
  }

  /** States of a row that belongs to no group; for a missing row, the state it would return to. */
  predicate Unfiled(r: Row) {
    var s := if r.state.Missing? then RestoreTarget(r.prev) else r.state;
    s.Settling? || s.Sized? || s.Distinct?
  }

  ghost predicate HasKeyOf(r: Row, g: Group) {
    KeyedAs(g, r.domain, r.size, g.hash) && r.sparse == Some(g.hash)
  }

  /** A row in a group carries the group's domain, size and hash. */
  ghost predicate RowFiled(groups: map<GroupId, Group>, r: Row) {
    && (r.group.Some? ==> r.group.value in groups && HasKeyOf(r, groups[r.group.value]))
    && (Unfiled(r) ==> r.group.None?)
  }

  ghost predicate FiledOk(db: Db) {
    forall i :: i in db.rows ==> RowFiled(db.groups, db.rows[i])
  }
}
