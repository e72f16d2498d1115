/** Which windows of a file the sparse hash reads, and what exactly it feeds to the digest. */
module Sampling {
  import opened Wrappers
  import opened Model

  const U32_MAX := 0xFFFF_FFFF
  const U64_MAX := 0xFFFF_FFFF_FFFF_FFFF

  datatype Window = Window(offset: nat, len: nat)

  datatype Params = Params(chunks: nat, chunkLen: nat)

  /** `HashParams::new`: a `u32` of at least 2 and a `u64` of at least 1. */
  ghost predicate ParamsOk(p: Params) {
    2 <= p.chunks <= U32_MAX && 1 <= p.chunkLen <= U64_MAX
  }

  function SatMul(a: nat, b: nat): nat {
    if a * b > U64_MAX then U64_MAX else a * b
  }

  const PAGE := 4096

  function AlignDown(n: nat): (r: nat)
    ensures r <= n && r % PAGE == 0
  {
    n - n % PAGE
  }

  /** The offset of window `i` of `n`: spread over `[0, span]` and aligned, the last one exact. */
  function Offset(i: nat, n: nat, span: nat): nat
    requires n >= 2
  {
    if i < n - 1 then AlignDown(SatMul(i, span) / (n - 1)) else span
  }

  /** `dedup_by_key`: of neighbours with one offset the first stays. */
  function Dedup(s: seq<Window>): seq<Window> {
    if |s| <= 1 then s
    else
      var front, last := Dedup(s[..|s| - 1]), s[|s| - 1];
      if front != [] && front[|front| - 1].offset == last.offset then front else front + [last]
  }

  function Spread(p: Params, span: nat): (s: seq<Window>)
    requires ParamsOk(p)
    ensures |s| == p.chunks
    ensures forall i :: 0 <= i < |s| ==> s[i] == Window(Offset(i, p.chunks, span), p.chunkLen)
  {
    seq(p.chunks, i requires 0 <= i < p.chunks => Window(Offset(i, p.chunks, span), p.chunkLen))
  }

  lemma TimesMonotone(a: nat, b: nat, c: nat)
    requires a <= b
    ensures a * c <= b * c
  {
  }

  lemma SpanPositive(p: Params, size: nat)
    requires ParamsOk(p) && SatMul(p.chunks, p.chunkLen) < size <= U64_MAX
    ensures size - p.chunkLen > 0 && size > p.chunks * p.chunkLen
  {
    TimesMonotone(2, p.chunks, p.chunkLen);
  }

  /** Small files are read whole. */
  function Windows(p: Params, size: nat): seq<Window>
    requires ParamsOk(p) && size <= U64_MAX
  {
    if size <= SatMul(p.chunks, p.chunkLen) then [Window(0, size)]
    else
      SpanPositive(p, size);
      Dedup(Spread(p, size - p.chunkLen))
  }

  // ---------------------------------------------------------------- windows are sound

  lemma QuotientMonotone(x: nat, y: nat, d: nat)
    requires x <= y && d > 0
    ensures x / d <= y / d
  {
    assert x / d * d <= x && y < (y / d + 1) * d;
    if x / d > y / d { TimesMonotone(y / d + 1, x / d, d); }
  }

  lemma AlignMonotone(x: nat, y: nat)
    requires x <= y
    ensures AlignDown(x) <= AlignDown(y)
  {
    QuotientMonotone(x, y, PAGE);
  }

  lemma SatMonotone(i: nat, j: nat, span: nat)
    requires i <= j
    ensures SatMul(i, span) <= SatMul(j, span)
  {
    TimesMonotone(i, j, span);
  }

  /** All offsets but the last lie before the last, even where the product saturates. */
  lemma OffsetBeforeSpan(i: nat, n: nat, span: nat)
    requires n >= 2 && i < n - 1 && span > 0
    ensures Offset(i, n, span) < span
  {
    TimesMonotone(i, n - 2, span);
    assert (n - 2) * span == (n - 1) * span - span;
    var q := SatMul(i, span) / (n - 1);
    assert q * (n - 1) <= SatMul(i, span) && span * (n - 1) == (n - 1) * span;
    if q >= span { TimesMonotone(span, q, n - 1); }
  }

  lemma OffsetMonotone(i: nat, j: nat, n: nat, span: nat)
    requires n >= 2 && i <= j < n && span > 0
    ensures Offset(i, n, span) <= Offset(j, n, span)
    ensures j == n - 1 && i < j ==> Offset(i, n, span) < Offset(j, n, span)
  {
    if i < n - 1 { OffsetBeforeSpan(i, n, span); }
    if j < n - 1 {
      SatMonotone(i, j, span);
      QuotientMonotone(SatMul(i, span), SatMul(j, span), n - 1);
      AlignMonotone(SatMul(i, span) / (n - 1), SatMul(j, span) / (n - 1));
    }
  }

  ghost predicate Increasing(s: seq<Window>) {
    forall i, j :: 0 <= i < j < |s| ==> s[i].offset < s[j].offset
  }

  ghost predicate Climbing(s: seq<Window>) {
    forall i, j :: 0 <= i < j < |s| ==> s[i].offset <= s[j].offset
  }

  /** Windows out of `s` with rising offsets, from its first to its last offset. */
  ghost predicate Thinned(d: seq<Window>, s: seq<Window>) {
    && s != [] && d != [] && |d| <= |s| && Increasing(d)
    && d[0] == s[0] && d[|d| - 1].offset == s[|s| - 1].offset
    && forall i :: 0 <= i < |d| ==> d[i] in s
  }

  lemma ThinnedSame(d: seq<Window>, s: seq<Window>, last: Window)
    requires Thinned(d, s) && last.offset == s[|s| - 1].offset
    ensures Thinned(d, s + [last])
  {
  }

  lemma ThinnedMore(d: seq<Window>, s: seq<Window>, last: Window)
    requires Thinned(d, s) && last.offset > s[|s| - 1].offset
    ensures Thinned(d + [last], s + [last])
  {
    var e := d + [last];
    forall i | 0 <= i < |e| ensures e[i] in s + [last] {
      if i < |d| { assert e[i] == d[i]; }
    }
    forall i, j | 0 <= i < j < |e| ensures e[i].offset < e[j].offset {
      if j == |d| { assert d[i].offset <= d[|d| - 1].offset; }
    }
  }

  /** One window more: it is dropped if it repeats the last offset kept. */
  lemma ThinnedNext(d: seq<Window>, s: seq<Window>, last: Window)
    requires Thinned(d, s) && s[|s| - 1].offset <= last.offset
    ensures Thinned(if d[|d| - 1].offset == last.offset then d else d + [last], s + [last])
  {
    if s[|s| - 1].offset == last.offset { ThinnedSame(d, s, last); } else { ThinnedMore(d, s, last); }
  }

  lemma DedupStep(front: seq<Window>, last: Window)
    requires front != []
    ensures var d := Dedup(front);
      Dedup(front + [last]) == if d != [] && d[|d| - 1].offset == last.offset then d else d + [last]
  {
    assert (front + [last])[..|front|] == front;
  }

  lemma ClimbingFront(s: seq<Window>)
    requires |s| > 1 && Climbing(s)
    ensures Climbing(s[..|s| - 1]) && s[..|s| - 1][|s| - 2].offset <= s[|s| - 1].offset
  {
  }

  lemma {:induction false} DedupFacts(s: seq<Window>)
    requires s != [] && Climbing(s)
    ensures Thinned(Dedup(s), s)
    decreases |s|
  {
    if |s| == 1 {
      assert Dedup(s) == s && s[0] in s;
    } else {
      var front, last := s[..|s| - 1], s[|s| - 1];
      assert s == front + [last];
      ClimbingFront(s);
      DedupFacts(front);
      DedupStep(front, last);
      ThinnedNext(Dedup(front), front, last);
    }
  }

  /** When the last window is beyond all others, it is kept and the others come from before it. */
  lemma DedupLast(s: seq<Window>)
    requires |s| > 1 && Climbing(s) && s[|s| - 2].offset < s[|s| - 1].offset
    ensures var d := Dedup(s);
      && |d| > 1 && d[|d| - 1] == s[|s| - 1]
      && forall i :: 0 <= i < |d| - 1 ==> d[i] in s[..|s| - 1]
  {
    DedupFacts(s[..|s| - 1]);
  }

  /** What the windows of a size promise. */
  ghost predicate WindowsOk(p: Params, size: nat, ws: seq<Window>) {
    && 1 <= |ws| <= p.chunks
    && ws[0].offset == 0
    && Increasing(ws)
    && (forall i :: 0 <= i < |ws| ==> ws[i].offset + ws[i].len <= size)
    && ws[|ws| - 1].offset + ws[|ws| - 1].len == size
    && (forall i :: 0 <= i < |ws| - 1 ==> ws[i].offset % PAGE == 0 && ws[i].len == p.chunkLen)
  }

  /**
   * For every size a `u64` can hold: the windows start at 0, strictly increase, stay inside
   * the file, end exactly at its end, are at most `chunks` many, and all but the last are aligned.
   */
  lemma WindowsAreSound(p: Params, size: nat)
    requires ParamsOk(p) && size <= U64_MAX
    ensures WindowsOk(p, size, Windows(p, size))
  {
    if size > SatMul(p.chunks, p.chunkLen) {
      SpanPositive(p, size);
      ThinnedSound(p, size, Spread(p, size - p.chunkLen));
    }
  }

  lemma ThinnedSound(p: Params, size: nat, raw: seq<Window>)
    requires ParamsOk(p) && p.chunkLen < size && |raw| == p.chunks
    requires forall i :: 0 <= i < |raw| ==> raw[i] == Window(Offset(i, p.chunks, size - p.chunkLen), p.chunkLen)
    ensures WindowsOk(p, size, Dedup(raw))
  {
    RawIsSound(p, size, raw);
    DedupFacts(raw);
    DedupLast(raw);
    var ws := Dedup(raw);
    forall i | 0 <= i < |ws| ensures ws[i].offset + ws[i].len <= size { assert ws[i] in raw; }
    forall i | 0 <= i < |ws| - 1 ensures ws[i].offset % PAGE == 0 && ws[i].len == p.chunkLen {
      assert ws[i] in raw[..|raw| - 1];
    }
  }

  lemma RawIsSound(p: Params, size: nat, raw: seq<Window>)
    requires ParamsOk(p) && p.chunkLen < size && |raw| == p.chunks
    requires forall i :: 0 <= i < |raw| ==> raw[i] == Window(Offset(i, p.chunks, size - p.chunkLen), p.chunkLen)
    ensures Climbing(raw) && raw[0].offset == 0 && raw[|raw| - 2].offset < raw[|raw| - 1].offset
    ensures raw[|raw| - 1].offset == size - p.chunkLen
    ensures forall w :: w in raw ==> w.offset + w.len <= size
    ensures forall w :: w in raw[..|raw| - 1] ==> w.offset % PAGE == 0 && w.len == p.chunkLen
  {
    var n, span := p.chunks, size - p.chunkLen;
    forall i, j | 0 <= i < j < n ensures raw[i].offset <= raw[j].offset { OffsetMonotone(i, j, n, span); }
    forall i | 0 <= i < n ensures raw[i].offset + raw[i].len <= size { OffsetMonotone(i, n - 1, n, span); }
    OffsetMonotone(n - 2, n - 1, n, span);
    assert SatMul(0, span) == 0;
  }

  // ---------------------------------------------------------------- the preimage

  type Bytes = seq<byte>

  const DOMAIN_TAG: seq<char> := "NASDEDUP-SPARSE-v1"

  /** `to_le_bytes` of a number of `k` bytes. */
  function LittleEndian(n: nat, k: nat): (s: Bytes)
    ensures |s| == k
  {
    if k == 0 then [] else [(n % 256) as byte] + LittleEndian(n / 256, k - 1)
  }

  function Power256(k: nat): nat { if k == 0 then 1 else 256 * Power256(k - 1) }

  lemma {:induction false} LittleEndianInjective(m: nat, n: nat, k: nat)
    requires m < Power256(k) && n < Power256(k) && LittleEndian(m, k) == LittleEndian(n, k)
    ensures m == n
    decreases k
  {
    if k > 0 {
      var a, b := LittleEndian(m, k), LittleEndian(n, k);
      assert a[0] == b[0] && a[1..] == b[1..];
      LittleEndianInjective(m / 256, n / 256, k - 1);
    }
  }

  function TagBytes(s: seq<char>): (r: Bytes)
    ensures |r| == |s|
  {
    seq(|s|, i requires 0 <= i < |s| => if s[i] < '\U{0080}' then (s[i] as int) as byte else 0)
  }

  function Header(p: Params, size: nat, count: nat): Bytes {
    TagBytes(DOMAIN_TAG) + (LittleEndian(p.chunks, 4) + (LittleEndian(p.chunkLen, 8)
      + (LittleEndian(size, 8) + LittleEndian(if count <= U32_MAX then count else U32_MAX, 4))))
  }

  /** `read_exact_at`, on a file that is long enough. */
  function ReadAt(f: Bytes, w: Window): Bytes
    requires w.offset + w.len <= |f|
  {
    f[w.offset..w.offset + w.len]
  }

  ghost predicate Inside(ws: seq<Window>, f: Bytes) {
    forall i :: 0 <= i < |ws| ==> ws[i].offset + ws[i].len <= |f|
  }

  function Body(ws: seq<Window>, f: Bytes): Bytes
    requires Inside(ws, f)
  {
    if ws == [] then [] else (LittleEndian(ws[0].offset, 8) + ReadAt(f, ws[0])) + Body(ws[1..], f)
  }

  /** Every byte that goes into the digest, in order. */
  function Preimage(p: Params, size: nat, f: Bytes): Bytes
    requires ParamsOk(p) && size <= |f| && size <= U64_MAX
  {
    WindowsAreSound(p, size);
    var ws := Windows(p, size);
    Header(p, size, |ws|) + Body(ws, f)
  }

  lemma AppendInjective(a: Bytes, b: Bytes, c: Bytes, d: Bytes)
    requires |a| == |c| && a + b == c + d
    ensures a == c && b == d
  {
    assert (a + b)[..|a|] == a && (c + d)[..|c|] == c;
    assert (a + b)[|a|..] == b && (c + d)[|c|..] == d;
  }

  lemma {:induction false} BodyInjective(ws: seq<Window>, f: Bytes, g: Bytes)
    requires Inside(ws, f) && Inside(ws, g)
    ensures Body(ws, f) == Body(ws, g) <==> forall i :: 0 <= i < |ws| ==> ReadAt(f, ws[i]) == ReadAt(g, ws[i])
  {
    if ws != [] {
      BodyInjective(ws[1..], f, g);
      var a, b := LittleEndian(ws[0].offset, 8) + ReadAt(f, ws[0]), LittleEndian(ws[0].offset, 8) + ReadAt(g, ws[0]);
      if Body(ws, f) == Body(ws, g) {
        AppendInjective(a, Body(ws[1..], f), b, Body(ws[1..], g));
        AppendInjective(LittleEndian(ws[0].offset, 8), ReadAt(f, ws[0]), LittleEndian(ws[0].offset, 8),
                        ReadAt(g, ws[0]));
        forall i | 0 <= i < |ws| ensures ReadAt(f, ws[i]) == ReadAt(g, ws[i]) {
          if i > 0 { assert ws[1..][i - 1] == ws[i]; }
        }
      }
      if forall i :: 0 <= i < |ws| ==> ReadAt(f, ws[i]) == ReadAt(g, ws[i]) {
        forall i | 0 <= i < |ws[1..]| ensures ReadAt(f, ws[1..][i]) == ReadAt(g, ws[1..][i]) {
          assert ws[1..][i] == ws[i + 1];
        }
      }
    }
  }

  lemma Powers()
    ensures Power256(4) == U32_MAX + 1 && Power256(8) == U64_MAX + 1
  {
    assert Power256(2) == 65536;
    assert Power256(4) == 256 * 256 * Power256(2);
    assert Power256(6) == 256 * 256 * Power256(4);
    assert Power256(8) == 256 * 256 * Power256(6);
  }

  lemma HeaderInjective(p: Params, s: nat, m: nat, q: Params, t: nat, n: nat)
    requires ParamsOk(p) && ParamsOk(q) && s <= U64_MAX && t <= U64_MAX
    requires Header(p, s, m) == Header(q, t, n)
    ensures p == q && s == t
  {
    Powers();
    var c, d := (if m <= U32_MAX then m else U32_MAX), (if n <= U32_MAX then n else U32_MAX);
    var a3, b3 := LittleEndian(s, 8) + LittleEndian(c, 4), LittleEndian(t, 8) + LittleEndian(d, 4);
    var a2, b2 := LittleEndian(p.chunkLen, 8) + a3, LittleEndian(q.chunkLen, 8) + b3;
    AppendInjective(TagBytes(DOMAIN_TAG), LittleEndian(p.chunks, 4) + a2, TagBytes(DOMAIN_TAG),
                    LittleEndian(q.chunks, 4) + b2);
    AppendInjective(LittleEndian(p.chunks, 4), a2, LittleEndian(q.chunks, 4), b2);
    AppendInjective(LittleEndian(p.chunkLen, 8), a3, LittleEndian(q.chunkLen, 8), b3);
    AppendInjective(LittleEndian(s, 8), LittleEndian(c, 4), LittleEndian(t, 8), LittleEndian(d, 4));
    LittleEndianInjective(p.chunks, q.chunks, 4);
    LittleEndianInjective(p.chunkLen, q.chunkLen, 8);
    LittleEndianInjective(s, t, 8);
  }

  lemma HeaderLength(p: Params, s: nat, m: nat)
    ensures |Header(p, s, m)| == |DOMAIN_TAG| + 24
  {
  }

  /** Every sampled window holds the same bytes in both files. */
  ghost predicate SampledAlike(p: Params, size: nat, f: Bytes, g: Bytes)
    requires ParamsOk(p) && size <= U64_MAX && size <= |f| && size <= |g|
  {
    WindowsAreSound(p, size);
    var ws := Windows(p, size);
    forall i :: 0 <= i < |ws| ==> ReadAt(f, ws[i]) == ReadAt(g, ws[i])
  }

  /** Two runs feed the digest the same bytes exactly when parameters, size and every sampled window agree. */
  lemma PreimageInjective(p: Params, s: nat, f: Bytes, q: Params, t: nat, g: Bytes)
    requires ParamsOk(p) && s <= |f| && s <= U64_MAX && ParamsOk(q) && t <= |g| && t <= U64_MAX
    ensures Preimage(p, s, f) == Preimage(q, t, g) <==> p == q && s == t && SampledAlike(p, s, f, g)
  {
    WindowsAreSound(p, s);
    WindowsAreSound(q, t);
    var ws, vs := Windows(p, s), Windows(q, t);
    HeaderLength(p, s, |ws|);
    HeaderLength(q, t, |vs|);
    if Preimage(p, s, f) == Preimage(q, t, g) {
      AppendInjective(Header(p, s, |ws|), Body(ws, f), Header(q, t, |vs|), Body(vs, g));
      HeaderInjective(p, s, |ws|, q, t, |vs|);
    }
    if p == q && s == t { BodyInjective(ws, f, g); }
  }

  /** When the windows cover the whole file, equal preimages mean equal files. */
  lemma SmallFilesIdentical(p: Params, s: nat, f: Bytes, g: Bytes)
    requires ParamsOk(p) && |f| == s && |g| == s && s <= U64_MAX && s <= p.chunks * p.chunkLen
    ensures Preimage(p, s, f) == Preimage(p, s, g) <==> f == g
  {
    WindowsAreSound(p, s);
    PreimageInjective(p, s, f, p, s, g);
    assert Windows(p, s) == [Window(0, s)];
    assert f[0..s] == f && g[0..s] == g;
  }

  // ---------------------------------------------------------------- the loops

  method SpreadOut(p: Params, span: nat) returns (ws: seq<Window>)
    requires ParamsOk(p)
    ensures ws == Spread(p, span)
  {
    ws := [];
    for i := 0 to p.chunks
      invariant ws == Spread(p, span)[..i]
    {
      ws := ws + [Window(Offset(i, p.chunks, span), p.chunkLen)];
    }
  }

  method DropRepeats(ws: seq<Window>) returns (kept: seq<Window>)
    ensures kept == Dedup(ws)
  {
    kept := [];
    for i := 0 to |ws|
      invariant kept == Dedup(ws[..i])
    {
      assert ws[..i + 1][..i] == ws[..i];
      if kept == [] || kept[|kept| - 1].offset != ws[i].offset {
        kept := kept + [ws[i]];
      }
    }
    assert ws[..|ws|] == ws;
  }

  method CutWindows(p: Params, size: nat) returns (ws: seq<Window>)
    requires ParamsOk(p) && size <= U64_MAX
    ensures ws == Windows(p, size)
  {
    if size <= SatMul(p.chunks, p.chunkLen) {
      return [Window(0, size)];
    }
    SpanPositive(p, size);
    ws := SpreadOut(p, size - p.chunkLen);
    ws := DropRepeats(ws);
  }

  datatype HashError = CannotRead | Paused

  /** The window may be read now, and all of it is there. */
  ghost predicate Comes(w: Window, f: Bytes, paused: nat -> bool, readable: nat -> bool) {
    !paused(w.offset) && readable(w.offset) && w.offset + w.len <= |f|
  }

  method FeedWindows(ws: seq<Window>, f: Bytes, paused: nat -> bool, readable: nat -> bool)
    returns (r: Result<Bytes, HashError>)
    ensures r.Ok? ==> Inside(ws, f) && r.value == Body(ws, f)
    ensures r.Ok? <==> forall j :: 0 <= j < |ws| ==> Comes(ws[j], f, paused, readable)
  {
    var fed: Bytes := [];
    for i := 0 to |ws|
      invariant Inside(ws[..i], f) && fed == Body(ws[..i], f)
      invariant forall j :: 0 <= j < i ==> Comes(ws[j], f, paused, readable)
    {
      if paused(ws[i].offset) {
        return Err(Paused);
      }
      if !readable(ws[i].offset) || |f| < ws[i].offset + ws[i].len {
        return Err(CannotRead);
      }
      BodyAppend(ws[..i], ws[i], f);
      assert ws[..i + 1] == ws[..i] + [ws[i]];
      fed := fed + (LittleEndian(ws[i].offset, 8) + ReadAt(f, ws[i]));
    }
    assert ws[..|ws|] == ws;
    r := Ok(fed);
  }

  /**
   * Everything the hasher is fed, unless the governor pauses it, a read fails, or the file is shorter than
   * asked for.
   */
  method FeedHasher(p: Params, size: nat, f: Bytes, paused: nat -> bool, readable: nat -> bool)
    returns (r: Result<Bytes, HashError>)
    requires ParamsOk(p) && size <= U64_MAX
    ensures r.Ok? ==> size <= |f| && r.value == Preimage(p, size, f)
    ensures r.Ok? <==>
      size <= |f| && var ws := Windows(p, size);
        forall j :: 0 <= j < |ws| ==> !paused(ws[j].offset) && readable(ws[j].offset)
  {
    WindowsAreSound(p, size);
    var ws := CutWindows(p, size);
    r := FeedWindows(ws, f, paused, readable);
    LastInside(p, size, ws, f);
    if r.Ok? {
      r := Ok(Header(p, size, |ws|) + r.value);
    }
  }

  /** All windows are inside the file exactly when the file has the size. */
  lemma LastInside(p: Params, size: nat, ws: seq<Window>, f: Bytes)
    requires ParamsOk(p) && size <= U64_MAX && ws == Windows(p, size)
    ensures ws != [] && (Inside(ws, f) <==> size <= |f|)
  {
    WindowsAreSound(p, size);
    assert ws[|ws| - 1].offset + ws[|ws| - 1].len == size;
  }

  lemma Regroup(a: Bytes, b: Bytes, c: Bytes)
    ensures a + (b + c) == (a + b) + c
  {
  }

  lemma BodyStep(w: Window, ws: seq<Window>, f: Bytes)
    requires Inside(ws, f) && w.offset + w.len <= |f|
    ensures Inside([w] + ws, f)
    ensures Body([w] + ws, f) == (LittleEndian(w.offset, 8) + ReadAt(f, w)) + Body(ws, f)
  {
    assert ([w] + ws)[1..] == ws;
  }

  lemma {:induction false} BodyAppend(ws: seq<Window>, w: Window, f: Bytes)
    requires Inside(ws, f) && w.offset + w.len <= |f|
    ensures Inside(ws + [w], f) && Body(ws + [w], f) == Body(ws, f) + (LittleEndian(w.offset, 8) + ReadAt(f, w))
    decreases |ws|
  {
    if ws == [] {
      BodyStep(w, [], f);
      assert [] + [w] == [w] == [w] + [];
    } else {
      var first, rest := ws[0], ws[1..];
      BodyAppend(rest, w, f);
      BodyStep(first, rest, f);
      BodyStep(first, rest + [w], f);
      assert ws == [first] + rest && ws + [w] == [first] + (rest + [w]);
      Regroup(LittleEndian(first.offset, 8) + ReadAt(f, first), Body(rest, f),
              LittleEndian(w.offset, 8) + ReadAt(f, w));
    }
  }
}
