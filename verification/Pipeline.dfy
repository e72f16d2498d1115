/**
 * One step of the pipeline: a queued row and what the file system answers go in,
 * a decision comes out. The step itself writes nothing.
 */
module Pipeline {
  import opened Wrappers
  import opened Model
  import opened Selection
  import opened StoreSpec

  // ---------------------------------------------------------------- environment

  datatype FsError = NotFound | OtherFs(text: string)

  /** An error that is not a decision of the pipeline: the worker backs off. */
  datatype StepError = StepError(text: string)

  /** An opened file: its `fstat`, what later calls on the same descriptor answer, its bytes. */
  datatype Opened = Opened(
    identity: Identity,
    refreshed: Result<Identity, StepError>,
    hole: Result<bool, StepError>,
    magic: Result<bool, StepError>,
    digest: Result<Hash, StepError>,
    bytes: seq<byte>,
    readable: nat -> bool)

  datatype DedupeOutcome = Same(bytesShared: nat) | Differs(at: nat)

  datatype DedupeError = Errno(code: int) | NoProgress | Busy | FingerprintChanged | Stopped | IoError | RepoError

  /** Everything outside the database that one round can observe. */
  datatype Env = Env(
    statx: FileLoc -> Result<Identity, FsError>,
    open: FileLoc -> Result<Opened, FsError>,
    openRw: FileLoc -> Result<Opened, FsError>,
    dedupe: (Opened, Opened, nat) -> Result<DedupeOutcome, DedupeError>)

  datatype Ctx = Ctx(
    now: Ts, allowHeavy: bool, nextHeavyAt: Option<Ts>,
    settleDelay: int, scope: Scope, maxSizeGroup: nat, verifyMaxSize: nat,
    hashParamsOk: bool, destNeedsWrite: bool, sharesExtents: bool)

  datatype Outcome = Commit(t: Transition) | Defer(until: Ts) | Noop

  type Stepped = Result<Outcome, StepError>

  // ---------------------------------------------------------------- error table

  datatype Policy =
    | RetryNow | Backoff | BackoffAndWarn | ParkDomain | PairImpossible
    | PrintChanged | Halt | GiveUp
  {
    predicate CountsAttempt() { Backoff? || BackoffAndWarn? || PrintChanged? }
  }

  const EINTR := 4

  function OfErrno(n: int): Policy {
    if n == EINTR then RetryNow
    else if n == 95 || n == 25 then ParkDomain                                    // EOPNOTSUPP, ENOTTY
    else if n == 18 || n == 22 || n == 30 || n == 26 then PairImpossible          // EXDEV, EINVAL, EROFS, ETXTBSY
    else if n == 1 || n == 13 then BackoffAndWarn                                 // EPERM, EACCES
    else if n == 28 || n == 11 || n == 16 || n == 12 || n == 5 then Backoff       // ENOSPC, EAGAIN, EBUSY, ENOMEM, EIO
    else if n == 2 || n == 116 then PairImpossible                                // ENOENT, ESTALE
    else if n == 9 || n == 21 then GiveUp                                         // EBADF, EISDIR
    else Backoff
  }

  function PolicyOf(e: DedupeError): Policy {
    match e
    case Stopped => Halt
    case FingerprintChanged => PrintChanged
    case Busy => Backoff
    case NoProgress => GiveUp
    case Errno(n) => OfErrno(n)
    case IoError => Backoff
    case RepoError => Backoff
  }

  function ErrorText(e: DedupeError): string {
    match e
    case Stopped => "stopped"
    case FingerprintChanged => "fingerprint changed"
    case Busy => "busy"
    case NoProgress => "no progress"
    case Errno(_) => "errno"
    case IoError => "io"
    case RepoError => "repo"
  }

  // ---------------------------------------------------------------- builders

  function Move(id: RowId, from: State, to: State, p: Patch, now: Ts): Stepped {
    Ok(Commit(Transition(Cas(id, from, to, p), now, None, [])))
  }

  function MoveInGroup(id: RowId, from: State, to: State, p: Patch, now: Ts, op: GroupOp): Stepped {
    Ok(Commit(Transition(Cas(id, from, to, p), now, Some(op), [])))
  }

  function Ready(at: Option<Ts>): Patch { NO_PATCH.(readyAt := Put(at)) }

  function Skip(reason: SkipReason): Patch { Ready(None).(skipReason := Put(Some(reason))) }

  function Vanish(id: RowId, from: State, now: Ts): Stepped {
    Move(id, from, Missing, Ready(None).(prev := Put(Some(from))), now)
  }

  /** Deferral to the next heavy window. */
  function HeavyLater(c: Ctx): Ts {
    match c.nextHeavyAt
    case Some(t) => t
    case None => c.now + MINUTE_MS
  }

  /** First deferral of a heavy step writes the waiting mark; later ones only defer. */
  function AwaitHeavy(c: Ctx, id: RowId, r: Row): Stepped {
    if r.heavySince.None? then
      Move(id, r.state, r.state, Ready(Some(HeavyLater(c))).(heavySince := Put(Some(c.now))), c.now)
    else Ok(Defer(HeavyLater(c)))
  }

  /** Contents changed: settle again, forget the hash and the group. */
  function BackToSettling(c: Ctx, id: RowId, r: Row): Stepped {
    Move(id, r.state, Settling,
         Ready(Some(c.now + c.settleDelay)).(sparse := Put(None), full := Put(None),
                                             magicOk := Put(false), group := Put(None)),
         c.now)
  }

  // ---------------------------------------------------------------- settling

  function SettleStep(c: Ctx, e: Env, id: RowId, r: Row): Stepped {
    match e.statx(r.loc)
    case Err(NotFound) => Vanish(id, Settling, c.now)
    case Err(OtherFs(text)) => Err(StepError(text))
    case Ok(i) =>
      if r.enq.Some? && r.enq.value != i.Print() then
        Move(id, Settling, Settling,
             Ready(Some(c.now + c.settleDelay)).(enq := Put(Some(i.Print()))), c.now)
      else if c.now - MsOf(i.mtime) < c.settleDelay then
        Ok(Defer(MsOf(i.mtime) + c.settleDelay))
      else
        match e.open(r.loc)
        case Err(NotFound) => Vanish(id, Settling, c.now)
        case Err(OtherFs(text)) => Err(StepError(text))
        case Ok(f) => SettleOpened(c, id, f)
  }

  function SettleOpened(c: Ctx, id: RowId, f: Opened): Stepped {
    var i := f.identity;
    if i.nlink > 1 then
      Move(id, Settling, Skipped, Skip(Hardlink).(identity := Put(i)), c.now)
    else if SpecialMode(i.mode) then
      Move(id, Settling, Skipped, Skip(SpecialModeBits).(identity := Put(i)), c.now)
    else if f.magic.Err? then Err(f.magic.error)
    else if !f.magic.value then
      Move(id, Settling, Skipped, Skip(BadMagic).(identity := Put(i)), c.now)
    else if f.hole.Err? then Err(f.hole.error)
    else if f.hole.value then
      Move(id, Settling, Settling,
           Ready(Some(c.now + DAY_MS)).(identity := Put(i), magicOk := Put(true),
                                        skipReason := Put(Some(SuspectPartial))), c.now)
    else
      Move(id, Settling, Sized,
           Ready(Some(c.now)).(identity := Put(i), enq := Put(Some(i.Print())), magicOk := Put(true),
                               skipReason := Put(None)), c.now)
  }

  // ---------------------------------------------------------------- sized

  function SizedStep(c: Ctx, e: Env, db: Db, id: RowId): Stepped
    requires id in db.rows
  {
    var r := db.rows[id];
    match r.sparse
    case None => ComputeHash(c, e, id, r)
    case Some(h) =>
      match e.statx(r.loc)
      case Ok(i) => if i.Print() != r.Print() then BackToSettling(c, id, r) else PlaceInGroup(c, e, db, id, h)
      case Err(NotFound) => Vanish(id, Sized, c.now)
      case Err(OtherFs(text)) => Err(StepError(text))
  }

  function ComputeHash(c: Ctx, e: Env, id: RowId, r: Row): Stepped {
    if !c.allowHeavy then AwaitHeavy(c, id, r)
    else
      match e.open(r.loc)
      case Err(NotFound) => Vanish(id, Sized, c.now)
      case Err(OtherFs(text)) => Err(StepError(text))
      case Ok(f) =>
        if f.identity.Print() != r.Print() then BackToSettling(c, id, r)
        else if r.magicOk.None? && f.magic.Err? then Err(f.magic.error)
        else if r.magicOk.None? && !f.magic.value then
          Move(id, Sized, Skipped, Skip(BadMagic).(magicOk := Put(false)), c.now)
        else if !c.hashParamsOk then Err(StepError("hash parameters"))
        else if f.digest.Err? then Err(f.digest.error)
        else if f.refreshed.Err? then Err(f.refreshed.error)
        else if f.refreshed.value.Print() != f.identity.Print() then BackToSettling(c, id, r)
        else
          Move(id, Sized, Sized,
               Ready(Some(c.now)).(sparse := Put(Some(f.digest.value)), hashVersion := Put(HASH_VERSION),
                                   magicOk := Put(true), heavySince := Put(None)), c.now)
  }

  // ---------------------------------------------------------------- groups

  /** Only the first group of the key is looked at here; `Disagree` walks to the later ones. */
  function PlaceInGroup(c: Ctx, e: Env, db: Db, id: RowId, h: Hash): Stepped
    requires id in db.rows
  {
    var r := db.rows[id];
    match FirstGroup(db, r.domain, r.size, h)
    case None => FindCandidates(c, e, db, id, h)
    case Some(g) =>
      match CanonicalMember(db, g)
      case Some(k) =>
        if db.rows[k].Live() then
          if k == id then Move(id, Sized, Canonical, Ready(None).(group := Put(Some(g))), c.now)
          else Move(id, Sized, Hashed, Ready(Some(c.now)).(group := Put(Some(g))), c.now)
        else TakeOver(c, id, g)
      case None => TakeOver(c, id, g)
  }

  function TakeOver(c: Ctx, id: RowId, g: GroupId): Stepped {
    MoveInGroup(id, Sized, Canonical, Ready(None).(group := Put(Some(g))), c.now, SetCanonical(g, id))
  }

  function FindCandidates(c: Ctx, e: Env, db: Db, id: RowId, h: Hash): Stepped
    requires id in db.rows
  {
    match StillSettling(c, db, id)
    case Some(until) => Ok(Defer(until))
    case None => AmongCandidates(c, e, db, id, h, SettledPeers(c, db, id))
  }

  /** When a file of the same size is due to settle later than now: that time. */
  function StillSettling(c: Ctx, db: Db, id: RowId): (t: Option<Ts>)
    requires id in db.rows
    ensures t.Some? ==> t.value > c.now
  {
    var pending := PendingSameSize(db.rows, id, c.scope);
    if pending.Some? && pending.value > c.now then pending else None
  }

  /** Only files last written before this time, in nanoseconds, are trusted. */
  function SettledBefore(c: Ctx): int { Clamp((c.now - c.settleDelay) * MS_PER_NS) }

  function SettledPeers(c: Ctx, db: Db, id: RowId): (s: seq<RowId>)
    requires id in db.rows
    ensures NoRepeats(s)
    ensures forall k :: k in s ==>
      && k in db.rows && k != id && (db.rows[k].state.Sized? || db.rows[k].state.Distinct?)
      && db.rows[k].domain == db.rows[id].domain && db.rows[k].size == db.rows[id].size
  {
    Candidates(db.rows, id, c.scope, SettledBefore(c), c.maxSizeGroup)
  }

  /** Unhashed candidates are read first, one a round; then those with the same hash form a group. */
  function AmongCandidates(c: Ctx, e: Env, db: Db, id: RowId, h: Hash, cands: seq<RowId>): Stepped
    requires id in db.rows && forall k :: k in cands ==> k in db.rows
  {
    match FirstUnhashed(db.rows, cands)
    case Some(k) => if !c.allowHeavy then Ok(Defer(HeavyLater(c))) else Backfill(c, e, db, id, k)
    case None =>
      var twins := WithHash(db.rows, cands, h);
      if twins == [] then Move(id, Sized, Distinct, Ready(None), c.now)
      else MakeGroup(c, db, id, twins, h)
  }

  function FirstUnhashed(rows: map<RowId, Row>, cands: seq<RowId>): (r: Option<RowId>)
    requires forall k :: k in cands ==> k in rows
    ensures r.Some? ==> r.value in cands && rows[r.value].sparse.None?
    ensures r.None? ==> forall k :: k in cands ==> rows[k].sparse.Some?
  {
    if cands == [] then None
    else
      if rows[cands[0]].sparse.None? then Some(cands[0])
      else FirstUnhashed(rows, cands[1..])
  }

  function WithHash(rows: map<RowId, Row>, cands: seq<RowId>, h: Hash): (s: seq<RowId>)
    requires forall k :: k in cands ==> k in rows
    ensures forall k :: k in s <==> k in cands && rows[k].sparse == Some(h)
    ensures NoRepeats(cands) ==> NoRepeats(s)
  {
    if cands == [] then []
    else
      if rows[cands[0]].sparse == Some(h) then [cands[0]] + WithHash(rows, cands[1..], h)
      else WithHash(rows, cands[1..], h)
  }

  /** Reads one unhashed candidate; the row itself stays `sized` and is due again at once. */
  function Backfill(c: Ctx, e: Env, db: Db, id: RowId, k: RowId): Stepped
    requires id in db.rows && k in db.rows
  {
    var cand := db.rows[k];
    match e.open(cand.loc)
    case Err(NotFound) =>
      MendCandidate(c, id, k, cand, Missing, Ready(None).(prev := Put(Some(cand.state))))
    case Err(OtherFs(text)) => Err(StepError(text))
    case Ok(f) =>
      if f.identity.Print() != cand.Print() then
        MendCandidate(c, id, k, cand, Settling,
                      Ready(Some(c.now + c.settleDelay)).(identity := Put(f.identity), sparse := Put(None),
                                                          full := Put(None), group := Put(None)))
      else if f.identity.nlink > 1 then MendCandidate(c, id, k, cand, Skipped, Skip(Hardlink))
      else if cand.magicOk.None? && f.magic.Err? then Err(f.magic.error)
      else if cand.magicOk.None? && !f.magic.value then MendCandidate(c, id, k, cand, Skipped, Skip(BadMagic))
      else if !c.hashParamsOk then Err(StepError("hash parameters"))
      else if f.digest.Err? then Err(f.digest.error)
      else
        MendCandidate(c, id, k, cand, cand.state,
                      NO_PATCH.(sparse := Put(Some(f.digest.value)), hashVersion := Put(HASH_VERSION),
                                magicOk := Put(true)))
  }

  function MendCandidate(c: Ctx, id: RowId, k: RowId, cand: Row, to: State, p: Patch): Stepped {
    Ok(Commit(Transition(Cas(id, Sized, Sized, Ready(Some(c.now)).(heavySince := Put(None))), c.now, None,
                        [Cas(k, cand.state, to, p)])))
  }

  /** `prefer_origin = oldest`: key `(mtime_ns, first_seen_at, ino, id)`. */
  function OriginRank(r: Row, id: RowId): Rank {
    Rank(r.mtime, r.firstSeen, r.key.ino, id.n)
  }

  function ChooseCanonical(rows: map<RowId, Row>, id: RowId, twins: seq<RowId>): (k: RowId)
    requires id in rows && forall t :: t in twins ==> t in rows
    ensures k == id || k in twins
    ensures forall t :: (t == id || t in twins) && t != k ==> Less(OriginRank(rows[k], k), OriginRank(rows[t], t))
  {
    if twins == [] then id
    else
      var k := ChooseCanonical(rows, id, twins[..|twins| - 1]);
      var t := twins[|twins| - 1];
      if Less(OriginRank(rows[t], t), OriginRank(rows[k], k)) then t else k
  }

  function MakeGroup(c: Ctx, db: Db, id: RowId, twins: seq<RowId>, h: Hash): Stepped
    requires id in db.rows && forall t :: t in twins ==> t in db.rows
  {
    var origin := ChooseCanonical(db.rows, id, twins);
    Ok(Commit(Transition(MakeGroupMain(c, id, origin), c.now, Some(Create(origin, h, HASH_VERSION)),
                        TwinMoves(c, db.rows, origin, twins))))
  }

  function MakeGroupMain(c: Ctx, id: RowId, origin: RowId): Cas {
    if origin == id then Cas(id, Sized, Canonical, Ready(None)) else Cas(id, Sized, Hashed, Ready(Some(c.now)))
  }

  function TwinMoves(c: Ctx, rows: map<RowId, Row>, origin: RowId, twins: seq<RowId>): (s: seq<Cas>)
    requires forall t :: t in twins ==> t in rows
    ensures |s| == |twins|
    ensures forall j :: 0 <= j < |s| ==> s[j] == TwinMove(c, rows, origin, twins[j])
  {
    if twins == [] then []
    else [TwinMove(c, rows, origin, twins[0])] + TwinMoves(c, rows, origin, twins[1..])
  }

  function TwinMove(c: Ctx, rows: map<RowId, Row>, origin: RowId, t: RowId): Cas
    requires t in rows
  {
    if t == origin then Cas(t, rows[t].state, Canonical, Ready(None))
    else Cas(t, rows[t].state, Hashed, Ready(Some(c.now)))
  }

  // ---------------------------------------------------------------- hashed

  function VerifyStep(c: Ctx, e: Env, db: Db, id: RowId): Stepped
    requires id in db.rows
  {
    var r := db.rows[id];
    match r.group
    case None => Move(id, Hashed, Sized, Ready(Some(c.now)), c.now)
    case Some(g) =>
      if !c.allowHeavy then AwaitHeavy(c, id, r)
      else if g !in db.groups then
        MoveInGroup(id, Hashed, Sized, Ready(Some(c.now)).(group := Put(None)), c.now, Leave(g))
      else
        match CanonicalMember(db, g)
        case None => MoveInGroup(id, Hashed, Canonical, Ready(None), c.now, SetCanonical(g, id))
        case Some(k) =>
          if k == id then Move(id, Hashed, Canonical, Ready(None), c.now)
          else if c.verifyMaxSize > 0 && r.size > c.verifyMaxSize then
            Move(id, Hashed, Hashed, Skip(TooLarge), c.now)
          else VerifyPair(c, e, db, id, k, g)
  }

  function OpenDest(c: Ctx, e: Env, loc: FileLoc): Result<Opened, FsError> {
    if c.destNeedsWrite then e.openRw(loc) else e.open(loc)
  }

  function VerifyPair(c: Ctx, e: Env, db: Db, id: RowId, k: RowId, g: GroupId): Stepped
    requires id in db.rows && k in db.rows
  {
    var r, canon := db.rows[id], db.rows[k];
    match e.open(canon.loc)
    case Err(NotFound) =>
      Replace(c, id, k, canon, g, Missing, Ready(None).(prev := Put(Some(canon.state))))
    case Err(OtherFs(text)) => Err(StepError(text))
    case Ok(a) =>
      match OpenDest(c, e, r.loc)
      case Err(NotFound) => Vanish(id, Hashed, c.now)
      case Err(OtherFs(text)) => Err(StepError(text))
      case Ok(b) => VerifyOpened(c, e, db, id, k, g, a, b)
  }

  /** Every safety check before the backend is called. */
  function VerifyOpened(c: Ctx, e: Env, db: Db, id: RowId, k: RowId, g: GroupId, a: Opened, b: Opened): Stepped
    requires id in db.rows && k in db.rows
  {
    var r, canon := db.rows[id], db.rows[k];
    if b.identity.Print() != r.Print() then BackToSettling(c, id, r)
    else if a.identity.Print() != canon.Print() then
      Replace(c, id, k, canon, g, Settling, Forget(c))
    else if b.identity.nlink > 1 then Move(id, Hashed, Skipped, Skip(Hardlink), c.now)
    else if SpecialMode(b.identity.mode) then Move(id, Hashed, Skipped, Skip(SpecialModeBits), c.now)
    else if a.identity.key == b.identity.key then GiveUpOn(c, id, "one inode")
    else if a.identity.size != b.identity.size then GiveUpOn(c, id, "sizes differ")
    else Compared(c, e, db, id, g, a, b)
  }

  function Compared(c: Ctx, e: Env, db: Db, id: RowId, g: GroupId, a: Opened, b: Opened): Stepped
    requires id in db.rows
  {
    match e.dedupe(a, b, b.identity.size)
    case Ok(Same(_)) => Agree(c, id, g, b.identity)
    case Ok(Differs(_)) => Disagree(c, db, id, g)
    case Err(err) => OnDedupeError(c, id, db.rows[id], err)
  }

  function GiveUpOn(c: Ctx, id: RowId, why: string): Stepped {
    Move(id, Hashed, Failed, Ready(None).(lastError := Put(Some(why))), c.now)
  }

  function Forget(c: Ctx): Patch {
    Ready(Some(c.now + c.settleDelay)).(sparse := Put(None), group := Put(None))
  }

  /** The old canonical leaves its role, the row takes it. */
  function Replace(c: Ctx, id: RowId, k: RowId, canon: Row, g: GroupId, to: State, p: Patch): Stepped {
    Ok(Commit(Transition(Cas(id, Hashed, Canonical, Ready(None)), c.now, Some(SetCanonical(g, id)),
                        [Cas(k, canon.state, to, p)])))
  }

  function Agree(c: Ctx, id: RowId, g: GroupId, seen: Identity): Stepped {
    MoveInGroup(id, Hashed, if c.sharesExtents then Deduped else Verified,
                Ready(None).(identity := Put(seen), attempts := Put(0)), c.now, MarkVerified(g, None))
  }

  function HashOrZero(r: Row): Hash {
    if r.sparse.Some? then r.sparse.value else ZERO_HASH
  }

  function Disagree(c: Ctx, db: Db, id: RowId, g: GroupId): Stepped
    requires id in db.rows
  {
    var r := db.rows[id];
    match NextGroup(db, r.domain, r.size, HashOrZero(r), g)
    case Some(next) => Move(id, Hashed, Hashed, Ready(Some(c.now)).(group := Put(Some(next))), c.now)
    case None =>
      MoveInGroup(id, Hashed, Canonical, Ready(None).(group := Put(None)), c.now,
                  Create(id, HashOrZero(r), HASH_VERSION))
  }

  function OnDedupeError(c: Ctx, id: RowId, r: Row, err: DedupeError): Stepped {
    var p := PolicyOf(err);
    var attempts := if p.CountsAttempt() then r.attempts + 1 else r.attempts;
    match p
    case Halt => Ok(Defer(c.now + MINUTE_MS))
    case RetryNow => Ok(Defer(c.now))
    case PrintChanged =>
      var unstable := attempts >= MAX_UNSTABLE_ATTEMPTS;
      Move(id, Hashed, Settling,
           Ready(Some(c.now + if unstable then DAY_MS else BackoffMs(attempts))).(
             attempts := Put(attempts), skipReason := Put(if unstable then Some(Unstable) else None),
             sparse := Put(None), group := Put(None)), c.now)
    case Backoff => BackoffMove(c, id, attempts, err)
    case BackoffAndWarn => BackoffMove(c, id, attempts, err)
    case ParkDomain =>
      Move(id, Hashed, Hashed, Skip(Unsupported).(lastError := Put(Some(ErrorText(err)))), c.now)
    case PairImpossible =>
      Move(id, Hashed, Sized,
           Ready(Some(c.now)).(group := Put(None), skipReason := Put(Some(Unsupported))), c.now)
    case GiveUp => GiveUpOn(c, id, ErrorText(err))
  }

  function BackoffMove(c: Ctx, id: RowId, attempts: nat, err: DedupeError): Stepped {
    Move(id, Hashed, Hashed,
         Ready(Some(c.now + BackoffMs(attempts))).(attempts := Put(attempts),
                                                   lastError := Put(Some(ErrorText(err)))), c.now)
  }

  // ---------------------------------------------------------------- dispatch and round

  function Step(c: Ctx, e: Env, db: Db, id: RowId): Stepped
    requires id in db.rows
  {
    match db.rows[id].state
    case Settling => SettleStep(c, e, id, db.rows[id])
    case Sized => SizedStep(c, e, db, id)
    case Hashed => VerifyStep(c, e, db, id)
    case _ => Ok(Noop)
  }

  function Postpone(c: Ctx, id: RowId, r: Row, until: Ts): Transition {
    Transition(Cas(id, r.state, r.state, Ready(Some(if until < c.now then c.now else until))), c.now, None, [])
  }

  /** A temporary error: counted, and given up on after `MAX_ATTEMPTS`. */
  function Fail(c: Ctx, id: RowId, r: Row, err: StepError): Transition {
    var attempts := r.attempts + 1;
    var over := attempts >= MAX_ATTEMPTS;
    Transition(Cas(id, r.state, if over then Failed else r.state,
                   Ready(if over then None else Some(c.now + BackoffMs(attempts))).(
                     attempts := Put(attempts), lastError := Put(Some(err.text)))), c.now, None, [])
  }

  /** The transition a round applies for row `id` after its step answered `s`. */
  function Decide(c: Ctx, id: RowId, r: Row, s: Stepped): Transition {
    match s
    case Ok(Commit(t)) => t
    case Ok(Defer(until)) => Postpone(c, id, r, until)
    case Ok(Noop) => Postpone(c, id, r, c.now + MINUTE_MS)
    case Err(err) => Fail(c, id, r, err)
  }

  datatype RoundResult = QueueEmpty | Worked(db: Db) | RepoRefused

  /** One round of the worker, read and write as one atomic step. */
  function Round(c: Ctx, e: Env, db: Db, maxWait: int): RoundResult {
    match NextReady(db.rows, c.now, c.allowHeavy, maxWait)
    case None => QueueEmpty
    case Some(id) =>
      match Apply(db, Decide(c, id, db.rows[id], Step(c, e, db, id)))
      case Refused => RepoRefused
      case Applied(db', _) => Worked(db')
  }
}
