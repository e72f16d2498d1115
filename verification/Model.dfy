/**
 * The tables `files` and `content_groups`, and the values a file system answers with.
 * A digest is represented by a number, one number per 32-byte value.
 */
module Model {
  import opened Wrappers
  import opened Selection

  type Ts = int

  newtype byte = x: int | 0 <= x < 256
  type RowId = Id
  type GroupId = Id
  type Hash = nat

  const ZERO_HASH: Hash := 0
  const HASH_VERSION := 1
  const MS_PER_NS := 1_000_000

  datatype FileKey = FileKey(sub: nat, ino: nat)

  datatype FileLoc = FileLoc(root: int, rel: string)

  datatype RootKind = Local | Remote

  datatype Fingerprint = Fingerprint(size: nat, mtime: int, ctime: int) {
    /** A remote root has no POSIX ctime, so only size and mtime count there. */
    predicate Matches(other: Fingerprint, kind: RootKind) {
      && size == other.size
      && mtime == other.mtime
      && (kind.Local? ==> ctime == other.ctime)
    }
  }

  /** Bits S_ISUID and S_ISGID of `st_mode`. */
  predicate SpecialMode(mode: nat) {
    (mode / 0x400) % 4 != 0
  }

  datatype Identity = Identity(key: FileKey, domain: nat, size: nat, mtime: int, ctime: int,
                               nlink: nat, uid: nat, mode: nat) {
    function Print(): Fingerprint {
      Fingerprint(size, mtime, ctime)
    }
  }

  datatype State =
    | Settling | Sized | Hashed | Verified | Deduped | Distinct
    | Canonical | Skipped | Failed | Missing | Gone
  {
    predicate Queued() { Settling? || Sized? || Hashed? }

    predicate OffDisk() { Missing? || Gone? }
  }

  datatype SkipReason =
    | NotVideo | TooSmall | BadMagic | Hardlink | SpecialModeBits | Excluded
    | Unsupported | UserUndo | Unstable | ReportNoVerify | TooLarge | SuspectPartial

  datatype Row = Row(
    key: FileKey, domain: nat, loc: FileLoc, uid: nat, mode: nat,
    size: nat, mtime: int, ctime: int, nlink: nat,
    state: State, prev: Option<State>,
    readyAt: Option<Ts>, priority: nat, heavySince: Option<Ts>, attempts: nat,
    lastError: Option<string>, skipReason: Option<SkipReason>,
    enq: Option<Fingerprint>, magicOk: Option<bool>,
    sparse: Option<Hash>, hashVersion: Option<nat>, full: Option<Hash>,
    group: Option<GroupId>,
    firstSeen: Ts, lastSeen: Ts, updated: Ts)
  {
    function Print(): Fingerprint {
      Fingerprint(size, mtime, ctime)
    }

    predicate Live() { !state.OffDisk() }
  }

  datatype Group = Group(domain: nat, size: nat, hash: Hash, hashVersion: nat, full: Option<Hash>,
                         canonical: Option<RowId>, verifiedAt: Option<Ts>, createdAt: Ts)

  /** The two tables. A row id is the key of `rows`, a group id the key of `groups`. */
  datatype Db = Db(rows: map<RowId, Row>, groups: map<GroupId, Group>)

  /** UNIQUE (sub_id, ino). */
  ghost predicate UniqueKeys(rows: map<RowId, Row>) {
    forall i, j :: i in rows && j in rows && rows[i].key == rows[j].key ==> i == j
  }

  /** Integer division of the source: towards zero. */
  function TruncDiv(a: int, b: int): int
    requires b > 0
  {
    if a >= 0 then a / b else -((-a) / b)
  }

  /** What is left over is less than the divisor and has the sign of the number divided. */
  lemma TowardsZero(a: int, b: int)
    requires b > 0
    ensures var rest := a - TruncDiv(a, b) * b; if a >= 0 then 0 <= rest < b else -b < rest <= 0
  {
  }

  function MsOf(ns: int): Ts {
    TruncDiv(ns, MS_PER_NS)
  }

  const I64_MAX := 0x7FFF_FFFF_FFFF_FFFF
  const I64_MIN := -0x8000_0000_0000_0000

  /** Saturation of i64 arithmetic. */
  function Clamp(x: int): int {
    if x > I64_MAX then I64_MAX else if x < I64_MIN then I64_MIN else x
  }

  function Distance(x: int, y: int): nat { if x < y then y - x else x - y }

  /** Of the numbers that an i64 can hold, it is the nearest. */
  lemma ClampIsNearest(x: int, y: int)
    requires -0x8000_0000_0000_0000 <= y <= 0x7FFF_FFFF_FFFF_FFFF
    ensures -0x8000_0000_0000_0000 <= Clamp(x) <= 0x7FFF_FFFF_FFFF_FFFF && Distance(x, Clamp(x)) <= Distance(x, y)
  {
  }

  const MAX_ATTEMPTS := 8
  const MAX_UNSTABLE_ATTEMPTS := 5
  const MINUTE_MS := 60_000
  const DAY_MS := 24 * 3_600_000

  function Pow2(n: nat): (p: nat)
    ensures p >= 1
  {
    if n == 0 then 1 else 2 * Pow2(n - 1)
  }

  /** 15 minutes doubled per attempt, at most a day. */
  function BackoffMs(attempts: nat): (ms: int)
    ensures 15 * MINUTE_MS <= ms <= DAY_MS
  {
    var shift := if attempts < 16 then attempts else 16;
    var raw := 15 * MINUTE_MS * Pow2(shift);
    if raw < DAY_MS then raw else DAY_MS
  }
}
