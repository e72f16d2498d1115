/** Byte comparison of two open files, block by block, and the dry-run backend built on it. */
module Compare {
  import opened Wrappers
  import opened Model
  import opened Pipeline

  const COMPARE_BLOCK := 8 * 1024 * 1024

  /** `read_exact_at`: all `n` bytes from `off`, or an error (also past the end of the file). */
  function ReadExact(f: Opened, off: nat, n: nat): (r: Result<seq<byte>, DedupeError>)
    ensures r.Ok? ==> off + n <= |f.bytes| && r.value == f.bytes[off..off + n]
  {
    if f.readable(off) && off + n <= |f.bytes| then Ok(f.bytes[off..off + n]) else Err(IoError)
  }

  /** Position of the first byte that differs. */
  function FirstDiff(a: seq<byte>, b: seq<byte>): (k: nat)
    requires |a| == |b| && a != b
    ensures k < |a| && a[..k] == b[..k] && a[k] != b[k]
  {
    if a[0] != b[0] then 0
    else
      assert a == [a[0]] + a[1..] && b == [b[0]] + b[1..];
      var k := 1 + FirstDiff(a[1..], b[1..]);
      assert a[..k] == [a[0]] + a[1..][..k - 1] && b[..k] == [b[0]] + b[1..][..k - 1];
      k
  }

  /** Both files have `len` bytes and agree on them. */
  ghost predicate AgreeOn(a: Opened, b: Opened, len: nat) {
    len <= |a.bytes| && len <= |b.bytes| && a.bytes[..len] == b.bytes[..len]
  }

  /** The first offset at which the files differ. */
  ghost predicate DifferAt(a: Opened, b: Opened, at: nat) {
    AgreeOn(a, b, at) && at < |a.bytes| && at < |b.bytes| && a.bytes[at] != b.bytes[at]
  }

  /** Nothing interrupts the comparison and every block can be read. */
  ghost predicate Undisturbed(a: Opened, b: Opened, len: nat, paused: nat -> bool) {
    && len <= |a.bytes| && len <= |b.bytes|
    && forall off :: 0 <= off < len ==> !paused(off) && a.readable(off) && b.readable(off)
  }

  function BlockLen(len: nat, off: nat): (n: nat)
    requires off < len
    ensures 1 <= n <= len - off
  {
    if len - off < COMPARE_BLOCK then len - off else COMPARE_BLOCK
  }

  /** One block: no answer while it agrees. `paused(off)` is the governor's answer before it. */
  function CompareBlock(a: Opened, b: Opened, off: nat, n: nat, paused: nat -> bool)
    : Option<Result<DedupeOutcome, DedupeError>>
  {
    if paused(off) then Some(Err(Stopped))
    else
      var x, y := ReadExact(a, off, n), ReadExact(b, off, n);
      if x.Err? then Some(Err(x.error))
      else if y.Err? then Some(Err(y.error))
      else if x.value != y.value then Some(Ok(Differs(off + FirstDiff(x.value, y.value))))
      else None
  }

  function CompareFrom(a: Opened, b: Opened, len: nat, off: nat, paused: nat -> bool)
    : Result<DedupeOutcome, DedupeError>
    decreases len - off
  {
    if off >= len then Ok(Same(len))
    else
      var n := BlockLen(len, off);
      match CompareBlock(a, b, off, n, paused)
      case Some(r) => r
      case None => CompareFrom(a, b, len, off + n, paused)
  }

  /** One more block of agreement, or the first difference inside it. */
  lemma BlockStep(a: Opened, b: Opened, off: nat, n: nat)
    requires AgreeOn(a, b, off) && off + n <= |a.bytes| && off + n <= |b.bytes|
    ensures var x, y := a.bytes[off..off + n], b.bytes[off..off + n];
      if x == y then AgreeOn(a, b, off + n) else DifferAt(a, b, off + FirstDiff(x, y))
  {
    var x, y := a.bytes[off..off + n], b.bytes[off..off + n];
    assert a.bytes[..off + n] == a.bytes[..off] + x && b.bytes[..off + n] == b.bytes[..off] + y;
    if x != y {
      var k := FirstDiff(x, y);
      assert a.bytes[..off + k] == a.bytes[..off] + x[..k] && b.bytes[..off + k] == b.bytes[..off] + y[..k];
      assert a.bytes[off + k] == x[k] && b.bytes[off + k] == y[k];
    }
  }

  /** What the answer on one block means. */
  lemma BlockMeans(a: Opened, b: Opened, len: nat, off: nat, n: nat, paused: nat -> bool)
    requires AgreeOn(a, b, off) && n > 0 && off + n <= len
    ensures match CompareBlock(a, b, off, n, paused)
      case None => AgreeOn(a, b, off + n)
      case Some(Ok(o)) => o.Differs? && o.at < len && DifferAt(a, b, o.at)
      case Some(Err(_)) => !Undisturbed(a, b, len, paused)
  {
    var x, y := ReadExact(a, off, n), ReadExact(b, off, n);
    if x.Ok? && y.Ok? { BlockStep(a, b, off, n); }
  }

  /** Reads one block of each file and compares; no answer while they agree. */
  method ReadAndCompare(a: Opened, b: Opened, off: nat, n: nat, paused: nat -> bool)
    returns (r: Option<Result<DedupeOutcome, DedupeError>>)
    ensures r == CompareBlock(a, b, off, n, paused)
  {
    if paused(off) {
      return Some(Err(Stopped));
    }
    var x := ReadExact(a, off, n);
    if x.Err? {
      return Some(Err(x.error));
    }
    var y := ReadExact(b, off, n);
    if y.Err? {
      return Some(Err(y.error));
    }
    if x.value != y.value {
      return Some(Ok(Differs(off + FirstDiff(x.value, y.value))));
    }
    r := None;
  }

  method CompareBytes(a: Opened, b: Opened, len: nat, paused: nat -> bool)
    returns (r: Result<DedupeOutcome, DedupeError>)
    ensures r == CompareFrom(a, b, len, 0, paused)
    ensures Answer(a, b, len, paused, r)
  {
    var off := 0;
    while off < len
      invariant 0 <= off <= len && AgreeOn(a, b, off)
      invariant CompareFrom(a, b, len, off, paused) == CompareFrom(a, b, len, 0, paused)
    {
      var n := BlockLen(len, off);
      BlockMeans(a, b, len, off, n, paused);
      var block := ReadAndCompare(a, b, off, n, paused);
      if block.Some? {
        return block.value;
      }
      off := off + n;
    }
    return Ok(Same(len));
  }

  /** `Same` is all `len` bytes equal, `Differs` the first difference, an error a disturbance. */
  ghost predicate Answer(a: Opened, b: Opened, len: nat, paused: nat -> bool, r: Result<DedupeOutcome, DedupeError>) {
    match r
    case Ok(Same(n)) => n == len && AgreeOn(a, b, len)
    case Ok(Differs(at)) => at < len && DifferAt(a, b, at)
    case Err(_) => !Undisturbed(a, b, len, paused)
  }

  lemma {:induction false} CompareMeans(a: Opened, b: Opened, len: nat, off: nat, paused: nat -> bool)
    requires off <= len && AgreeOn(a, b, off)
    ensures Answer(a, b, len, paused, CompareFrom(a, b, len, off, paused))
    decreases len - off
  {
    if off < len {
      var n := BlockLen(len, off);
      BlockMeans(a, b, len, off, n, paused);
      if CompareBlock(a, b, off, n, paused).None? { CompareMeans(a, b, len, off + n, paused); }
    }
  }

  /** Undisturbed, the comparison says `Same` exactly when the first `len` bytes are equal. */
  lemma SameIffEqual(a: Opened, b: Opened, len: nat, paused: nat -> bool)
    requires Undisturbed(a, b, len, paused)
    ensures CompareFrom(a, b, len, 0, paused) == Ok(Same(len)) <==> a.bytes[..len] == b.bytes[..len]
  {
    CompareMeans(a, b, len, 0, paused);
    var r := CompareFrom(a, b, len, 0, paused);
    if r.value.Differs? {
      assert a.bytes[..len][r.value.at] != b.bytes[..len][r.value.at];
    }
  }

  /** The report-mode backend: compares when asked to verify, refuses to read otherwise. */
  function DryRun(verify: bool, paused: nat -> bool, a: Opened, b: Opened, len: nat)
    : Result<DedupeOutcome, DedupeError>
  {
    if verify then CompareFrom(a, b, len, 0, paused) else Err(Stopped)
  }
}
