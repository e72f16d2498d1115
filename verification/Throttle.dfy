/** The token bucket that limits how fast the daemon reads. Floating point is modelled by reals. */
module Throttle {
  import opened Wrappers

  const MAX_WAIT_MS := 1000

  /** Bytes a millisecond, and the largest number of tokens. */
  datatype Limits = Limits(rate: real, burst: real)

  /** `with_clock`: both settings count as at least one byte. */
  function LimitsOf(bytesPerSec: nat, burstBytes: nat): (l: Limits)
    ensures LimitsOk(l)
  {
    Limits((if bytesPerSec < 1 then 1 else bytesPerSec) as real / 1000.0,
           (if burstBytes < 1 then 1 else burstBytes) as real)
  }

  ghost predicate LimitsOk(l: Limits) { l.rate > 0.0 && l.burst >= 1.0 }

  datatype Bucket = Bucket(tokens: real, last: nat)

  ghost predicate BucketOk(l: Limits, b: Bucket) { 0.0 <= b.tokens <= l.burst }

  function Min(a: real, b: real): real { if a <= b then a else b }

  /** The tokens of `ms` milliseconds: that many times the rate, as `GainIsTimes` says. */
  function Gain(l: Limits, ms: nat): real {
    if ms == 0 then 0.0 else Gain(l, ms - 1) + l.rate
  }

  lemma {:induction false} GainIsTimes(l: Limits, ms: nat)
    ensures Gain(l, ms) == ms as real * l.rate
  {
    if ms > 0 {
      GainIsTimes(l, ms - 1);
      assert ms as real * l.rate == (ms - 1) as real * l.rate + l.rate;
    }
  }

  lemma RateTimes(l: Limits, ms: nat)
    ensures Gain(l, ms) == l.rate * ms as real
  {
    GainIsTimes(l, ms);
    Commutes(l.rate, ms as real);
  }

  lemma Commutes(a: real, b: real)
    ensures a * b == b * a
  {
  }

  lemma {:induction false} GainAdds(l: Limits, a: nat, b: nat)
    ensures Gain(l, a) + Gain(l, b) == Gain(l, a + b)
  {
    if b > 0 { GainAdds(l, a, b - 1); }
  }

  lemma {:induction false} GainGrows(l: Limits, a: nat, b: nat)
    requires l.rate > 0.0 && a <= b
    ensures 0.0 <= Gain(l, a) <= Gain(l, b)
    ensures a >= 1 ==> Gain(l, a) >= l.rate
  {
    if a > 0 { GainGrows(l, a - 1, b - 1); }
    else if b > 0 { GainGrows(l, 0, b - 1); }
  }

  function Refill(l: Limits, b: Bucket, now: nat): Bucket {
    if now > b.last then Bucket(Min(b.tokens + Gain(l, now - b.last), l.burst), now) else b
  }

  function Ceil(x: real): int { -((-x).Floor) }

  function WaitMs(l: Limits, missing: real): (w: nat)
    requires LimitsOk(l)
    ensures 1 <= w <= MAX_WAIT_MS
  {
    var w := Ceil(missing / l.rate);
    if w < 1 then 1 else if w > MAX_WAIT_MS then MAX_WAIT_MS else w
  }

  /** A request larger than the burst is cut to it. */
  function Want(l: Limits, bytes: nat): real { Min(bytes as real, l.burst) }

  /** The bucket after an attempt, and how long to wait if it failed. */
  function TryTake(l: Limits, b: Bucket, now: nat, want: real): (Bucket, Option<nat>)
    requires LimitsOk(l)
  {
    var full := Refill(l, b, now);
    if full.tokens >= want then (full.(tokens := full.tokens - want), None)
    else (full, Some(WaitMs(l, want - full.tokens)))
  }

  // ---------------------------------------------------------------- the rate bound

  datatype Attempt = Attempt(at: nat, bytes: nat)

  /** What a run of attempts leaves, and how many bytes it granted, each request counted up to one burst. */
  function Serve(l: Limits, b: Bucket, tries: seq<Attempt>): (Bucket, real)
    requires LimitsOk(l)
    decreases |tries|
  {
    if tries == [] then (b, 0.0)
    else
      var bytes := tries[0].bytes as real;
      var (b', wait) := TryTake(l, b, tries[0].at, Want(l, tries[0].bytes));
      var (end, more) := Serve(l, b', tries[1..]);
      (end, (if wait.Some? then 0.0 else if bytes <= l.burst then bytes else l.burst) + more)
  }

  lemma RefillOk(l: Limits, b: Bucket, now: nat)
    requires LimitsOk(l) && BucketOk(l, b)
    ensures var full := Refill(l, b, now);
      && BucketOk(l, full) && full.last >= b.last
      && b.tokens <= full.tokens <= b.tokens + Gain(l, full.last - b.last)
  {
    if now > b.last { GainGrows(l, 0, now - b.last); }
  }

  /** A request counts in full up to one burst. */
  lemma WantIsCounted(l: Limits, bytes: nat)
    ensures Want(l, bytes) == if bytes as real <= l.burst then bytes as real else l.burst
  {
  }

  lemma AttemptBound(l: Limits, b: Bucket, now: nat, bytes: nat)
    requires LimitsOk(l) && BucketOk(l, b)
    ensures var (b', wait) := TryTake(l, b, now, Want(l, bytes));
      var counted := if bytes as real <= l.burst then bytes as real else l.burst;
      && BucketOk(l, b') && b'.last >= b.last
      && (if wait.None? then counted else 0.0) + b'.tokens <= b.tokens + Gain(l, b'.last - b.last)
  {
    RefillOk(l, b, now);
    WantIsCounted(l, bytes);
  }

  /**
   * An attempt is granted if and only if the tokens, refilled at the rate for the time passed and cut to the burst,
   * cover the request, cut to the burst; then exactly that many are taken, and otherwise none.
   */
  lemma GrantedIffCovered(l: Limits, b: Bucket, now: nat, bytes: nat)
    requires LimitsOk(l) && BucketOk(l, b)
    ensures var (b', wait) := TryTake(l, b, now, Want(l, bytes));
      var passed := if now > b.last then now - b.last else 0;
      var sum := b.tokens + l.rate * passed as real;
      var full := if sum <= l.burst then sum else l.burst;
      var counted := if bytes as real <= l.burst then bytes as real else l.burst;
      && (wait.None? <==> full >= counted)
      && b'.tokens == (if full >= counted then full - counted else full)
      && b'.last == if now > b.last then now else b.last
  {
    WantIsCounted(l, bytes);
    RateTimes(l, if now > b.last then now - b.last else 0);
  }

  lemma CeilBounds(x: real)
    ensures (Ceil(x) - 1) as real < x <= Ceil(x) as real
  {
    assert (-x).Floor as real <= -x < ((-x).Floor + 1) as real;
  }

  /** The wait asked for suffices, unless it is cut to a second, and a millisecond less would not do. */
  lemma WaitIsExact(l: Limits, missing: real)
    requires LimitsOk(l) && missing > 0.0
    ensures var w := WaitMs(l, missing);
      && (w < 1000 ==> w as real * l.rate >= missing)
      && (w > 1 ==> (w - 1) as real * l.rate < missing)
  {
    var x := Quotient(missing, l.rate);
    WaitBetween(x, l.rate, missing, WaitMs(l, missing));
  }

  lemma WaitBetween(x: real, rate: real, missing: real, w: nat)
    requires rate > 0.0 && x * rate == missing
    requires w == if Ceil(x) < 1 then 1 else if Ceil(x) > MAX_WAIT_MS then MAX_WAIT_MS else Ceil(x)
    ensures w < 1000 ==> w as real * rate >= missing
    ensures w > 1 ==> (w - 1) as real * rate < missing
  {
    CeilBounds(x);
    if w < 1000 { Enough(x, w as real, rate, missing); }
    if w > 1 { TooLittle(x, (w - 1) as real, rate, missing); }
  }

  lemma Enough(x: real, y: real, rate: real, missing: real)
    requires rate > 0.0 && x * rate == missing && x <= y
    ensures y * rate >= missing
  {
    Scales(x, y, rate);
  }

  lemma TooLittle(x: real, y: real, rate: real, missing: real)
    requires rate > 0.0 && x * rate == missing && y < x
    ensures y * rate < missing
  {
    ScalesStrictly(y, x, rate);
  }

  lemma Quotient(a: real, c: real) returns (x: real)
    requires c > 0.0
    ensures x == a / c && x * c == a
  {
    x := a / c;
  }

  lemma Scales(a: real, b: real, c: real)
    requires a <= b && c > 0.0
    ensures a * c <= b * c
  {
  }

  lemma ScalesStrictly(a: real, b: real, c: real)
    requires a < b && c > 0.0
    ensures a * c < b * c
  {
  }

  lemma {:induction false} ServeBound(l: Limits, b: Bucket, tries: seq<Attempt>)
    requires LimitsOk(l) && BucketOk(l, b)
    ensures var (end, granted) := Serve(l, b, tries);
      && BucketOk(l, end) && end.last >= b.last
      && granted + end.tokens <= b.tokens + Gain(l, end.last - b.last)
    decreases |tries|
  {
    if tries != [] {
      AttemptBound(l, b, tries[0].at, tries[0].bytes);
      var (b', wait) := TryTake(l, b, tries[0].at, Want(l, tries[0].bytes));
      ServeBound(l, b', tries[1..]);
      GainAdds(l, b'.last - b.last, Serve(l, b', tries[1..]).0.last - b'.last);
    }
  }

  /** A bound in gained tokens is one in the rate and the time. */
  lemma GainBound(l: Limits, granted: real, most: real, ms: nat)
    requires granted <= most + Gain(l, ms)
    ensures granted <= most + l.rate * ms as real
  {
    RateTimes(l, ms);
  }

  /**
   * From any state of the bucket and for any attempts, at any clock readings: the bytes granted, each
   * request counted up to one burst, stay within one burst and the rate times the time that passed.
   */
  lemma RateBound(l: Limits, b: Bucket, tries: seq<Attempt>)
    requires LimitsOk(l) && BucketOk(l, b)
    ensures var (end, granted) := Serve(l, b, tries);
      end.last >= b.last && 0.0 <= end.tokens <= l.burst && granted <= l.burst + l.rate * (end.last - b.last) as real
  {
    ServeBound(l, b, tries);
    var (end, granted) := Serve(l, b, tries);
    GainBound(l, granted, l.burst, end.last - b.last);
  }

  /** In the settings' own units: so many bytes a second, and so many at once, each at least one. */
  lemma RateBoundInSettings(bytesPerSec: nat, burstBytes: nat, b: Bucket, tries: seq<Attempt>)
    requires BucketOk(LimitsOf(bytesPerSec, burstBytes), b)
    ensures var (end, granted) := Serve(LimitsOf(bytesPerSec, burstBytes), b, tries);
      var perSec, atOnce := if bytesPerSec == 0 then 1 else bytesPerSec, if burstBytes == 0 then 1 else burstBytes;
      end.last >= b.last && granted <= atOnce as real + perSec as real * (end.last - b.last) as real / 1000.0
  {
    var l := LimitsOf(bytesPerSec, burstBytes);
    var (end, granted) := Serve(l, b, tries);
    RateBound(l, b, tries);
    SettingsAre(bytesPerSec, burstBytes);
    InSettings(l, granted, if bytesPerSec == 0 then 1 else bytesPerSec, end.last - b.last);
  }

  lemma SettingsAre(bytesPerSec: nat, burstBytes: nat)
    ensures var l := LimitsOf(bytesPerSec, burstBytes);
      && l.rate == (if bytesPerSec == 0 then 1 else bytesPerSec) as real / 1000.0
      && l.burst == (if burstBytes == 0 then 1 else burstBytes) as real
  {
  }

  lemma InSettings(l: Limits, granted: real, perSec: nat, ms: nat)
    requires l.rate == perSec as real / 1000.0 && granted <= l.burst + l.rate * ms as real
    ensures granted <= l.burst + perSec as real * ms as real / 1000.0
  {
    PerSecond(perSec as real, l.rate, ms as real);
  }

  lemma PerSecond(a: real, rate: real, t: real)
    requires rate == a / 1000.0
    ensures rate * t == a * t / 1000.0
  {
  }

  // ---------------------------------------------------------------- acquiring

  /** A monotonic clock. Reading it takes time and sleeping may take longer than asked. */
  class Clock {
    var now: nat
    const readLag: nat -> nat
    const sleepLag: nat -> nat

    constructor (start: nat, readLag: nat -> nat, sleepLag: nat -> nat)
      ensures now == start
    {
      now := start;
      this.readLag, this.sleepLag := readLag, sleepLag;
    }

    method NowMs() returns (t: nat)
      modifies this
      ensures t == now && now >= old(now)
    {
      now := now + readLag(now);
      t := now;
    }

    method Sleep(ms: nat)
      modifies this
      ensures now >= old(now) + ms
    {
      now := now + ms + sleepLag(now);
    }
  }

  /** Attempts a request of `missing` tokens still takes, when each wait brings at least one millisecond's worth. */
  ghost function AttemptsLeft(l: Limits, missing: real): nat
    requires LimitsOk(l)
  {
    if missing <= 0.0 then 0 else var n := Ceil(missing / l.rate); if n < 0 then 0 else n
  }

  lemma Cancel(a: real, b: real, c: real)
    requires c > 0.0 && a * c <= b * c
    ensures a <= b
  {
  }

  lemma FewerAttempts(l: Limits, missing: real, less: real)
    requires LimitsOk(l) && 0.0 < less <= missing - l.rate
    ensures AttemptsLeft(l, less) < AttemptsLeft(l, missing)
  {
    var a, b := less / l.rate, missing / l.rate;
    assert a * l.rate == less && b * l.rate == missing;
    assert (a + 1.0) * l.rate == a * l.rate + l.rate;
    Cancel(a + 1.0, b, l.rate);
    assert 0.0 * l.rate <= a * l.rate;
    Cancel(0.0, a, l.rate);
  }

  class TokenBucket {
    const limits: Limits
    const clock: Clock
    var state: Bucket
    var consumed: nat
    ghost const start: nat
    ghost var granted: real

    /** Tokens in range, and never more granted than the bound allows. */
    ghost predicate Valid()
      reads this, clock
    {
      && LimitsOk(limits) && BucketOk(limits, state)
      && start <= state.last <= clock.now
      && granted + state.tokens <= limits.burst + Gain(limits, state.last - start)
    }

    constructor (bytesPerSec: nat, burstBytes: nat, clock: Clock)
      modifies clock
      ensures Valid() && this.clock == clock && consumed == 0 && granted == 0.0
      ensures limits == LimitsOf(bytesPerSec, burstBytes) && state.tokens == limits.burst
    {
      var t := clock.NowMs();
      limits := LimitsOf(bytesPerSec, burstBytes);
      this.clock := clock;
      state := Bucket((if burstBytes < 1 then 1 else burstBytes) as real, t);
      consumed := 0;
      start := t;
      granted := 0.0;
    }

    method TakeOnce(bytes: nat) returns (wait: Option<nat>)
      requires Valid()
      modifies this, clock
      ensures Valid() && consumed == old(consumed)
      ensures state.last == clock.now && clock.now >= old(clock.now)
      ensures (state, wait) == TryTake(limits, old(state), clock.now, Want(limits, bytes))
      ensures granted == old(granted)
                         + if wait.Some? then 0.0
                           else if bytes as real <= limits.burst then bytes as real else limits.burst
      ensures wait.Some? <==>
        old(state.tokens) + Gain(limits, clock.now - old(state.last))
        < if bytes as real <= limits.burst then bytes as real else limits.burst
    {
      var now := clock.NowMs();
      AttemptBound(limits, state, now, bytes);
      WantIsCounted(limits, bytes);
      ghost var was := state;
      var (b, w) := TryTake(limits, state, now, Want(limits, bytes));
      GainAdds(limits, was.last - start, b.last - was.last);
      state, wait := b, w;
      if wait.None? {
        granted := granted + Want(limits, bytes);
      }
    }

    /** Waits until the request is granted; it always is. */
    method Acquire(bytes: nat)
      requires Valid()
      modifies this, clock
      ensures Valid() && consumed == old(consumed) + bytes
      ensures granted == old(granted) + if bytes as real <= limits.burst then bytes as real else limits.burst
      ensures granted <= limits.burst + Gain(limits, clock.now - start)
    {
      WantIsCounted(limits, bytes);
      var wait := TakeOnce(bytes);
      while wait.Some?
        invariant Valid() && consumed == old(consumed)
        invariant wait.Some? ==> granted == old(granted) && state.tokens < Want(limits, bytes)
        invariant wait.Some? ==> wait.value >= 1 && state.last == clock.now
        invariant wait.None? ==> granted == old(granted) + Want(limits, bytes)
        decreases wait.Some?, AttemptsLeft(limits, Want(limits, bytes) - state.tokens)
      {
        ghost var was := state;
        clock.Sleep(wait.value);
        wait := TakeOnce(bytes);
        if wait.Some? { WaitHelps(limits, was, clock.now, Want(limits, bytes)); }
      }
      consumed := consumed + bytes;
      GainGrows(limits, state.last - start, clock.now - start);
    }
  }

  /** After a wait of a millisecond or more, a failed attempt misses at least one millisecond's tokens less. */
  lemma WaitHelps(l: Limits, b: Bucket, now: nat, want: real)
    requires LimitsOk(l) && BucketOk(l, b) && now > b.last && b.tokens < want <= l.burst
    requires TryTake(l, b, now, want).1.Some?
    ensures AttemptsLeft(l, want - TryTake(l, b, now, want).0.tokens) < AttemptsLeft(l, want - b.tokens)
  {
    GainGrows(l, 1, now - b.last);
    FewerAttempts(l, want - b.tokens, want - TryTake(l, b, now, want).0.tokens);
  }
}
