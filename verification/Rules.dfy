/** The pure rule of the queue: what seeing a file again does to its row. */
module Rules {
  import opened Wrappers
  import opened Model

  /** The state a missing row returns to when the file is seen again. */
  function RestoreTarget(prev: Option<State>): State {
    match prev
    case Some(p) => if p.OffDisk() then Settling else p
    case None => Settling
  }

  datatype Decision = Decision(
    state: State, prev: Option<State>, readyAt: Option<Ts>, priority: nat, heavySince: Option<Ts>,
    attempts: nat, sparse: Option<Hash>, full: Option<Hash>, magicOk: Option<bool>,
    group: Option<GroupId>, skipReason: Option<SkipReason>, same: bool)

  function DecideUpsert(r: Row, seen: Identity, kind: RootKind, readyAt: Ts, priority: nat): Decision {
    var same := r.Print().Matches(seen.Print(), kind);
    var queued := r.state.Queued();
    var undone := r.skipReason == Some(UserUndo);
    var wasMissing := r.state.Missing?;
    var state :=
      if wasMissing && same then RestoreTarget(r.prev)
      else if same || undone then r.state
      else Settling;
    Decision(
      state,
      if same || queued then r.prev else Some(r.state),
      if wasMissing && same then (if state.Queued() then Some(readyAt) else None)
      else if same && !queued then r.readyAt
      else Some(readyAt),
      if r.priority < priority then r.priority else priority,
      if same then r.heavySince else None,
      if same then r.attempts else 0,
      if same then r.sparse else None,
      if same then r.full else None,
      if same then r.magicOk else None,
      if same then r.group else None,
      if same || undone then r.skipReason else None,
      same)
  }

  function ApplyUpsert(r: Row, d: Decision, seen: Identity, loc: FileLoc, now: Ts): Row {
    r.(loc := loc, uid := seen.uid, mode := seen.mode, enq := Some(seen.Print()),
       lastSeen := now, updated := now,
       state := d.state, prev := d.prev, readyAt := d.readyAt, priority := d.priority,
       heavySince := d.heavySince, attempts := d.attempts, sparse := d.sparse, full := d.full,
       magicOk := d.magicOk, group := d.group, skipReason := d.skipReason)
  }

  function NewRow(seen: Identity, loc: FileLoc, state: State, readyAt: Option<Ts>, priority: nat, now: Ts): Row {
    Row(seen.key, seen.domain, loc, seen.uid, seen.mode, seen.size, seen.mtime, seen.ctime, seen.nlink,
        state, None, readyAt, priority, None, 0, None, None, Some(seen.Print()), None,
        None, None, None, None, now, now, now)
  }
}
