/** The windows of the sparse hash are spread evenly over the file: no stretch of a large file goes unsampled. */
module Spacing {
  import opened Sampling

  /** Where window `k` of `n` would start without alignment; the product is one of `u64`, which saturates. */
  ghost function Ideal(k: nat, n: nat, span: nat): nat
    requires n >= 2
  {
    (if k * span <= U64_MAX then k * span else U64_MAX) / (n - 1)
  }

  /** Window `w` starts on the page of byte `at`, and not behind it. */
  ghost predicate StartsJustBefore(w: Window, at: nat) {
    w.offset <= at < w.offset + 4096
  }

  // ---------------------------------------------------------------- what dropping repeats keeps

  ghost predicate Starts(d: seq<Window>, offset: nat) {
    exists i :: 0 <= i < |d| && d[i].offset == offset
  }

  /** Every offset of `s` is one of `d`. */
  ghost predicate KeepsOffsets(d: seq<Window>, s: seq<Window>) {
    forall k :: 0 <= k < |s| ==> Starts(d, s[k].offset)
  }

  ghost predicate Beside(s: seq<Window>, k: nat, a: nat, b: nat) {
    0 < k < |s| && s[k - 1].offset == a && s[k].offset == b
  }

  /** Two neighbours of `s` start at `a` and `b`. */
  ghost predicate SomeBeside(s: seq<Window>, a: nat, b: nat) {
    exists k: nat :: Beside(s, k, a, b)
  }

  /** Windows `i - 1` and `i` of `d` start where two neighbours of `s` do. */
  ghost predicate FromPair(d: seq<Window>, i: nat, s: seq<Window>)
    requires 0 < i < |d|
  {
    SomeBeside(s, d[i - 1].offset, d[i].offset)
  }

  ghost predicate FromNeighbours(d: seq<Window>, s: seq<Window>) {
    forall i: nat :: 0 < i < |d| ==> FromPair(d, i, s)
  }

  lemma StartsMore(d: seq<Window>, last: Window, offset: nat)
    requires Starts(d, offset) || last.offset == offset
    ensures Starts(d + [last], offset)
  {
    var e := d + [last];
    if Starts(d, offset) {
      var i :| 0 <= i < |d| && d[i].offset == offset;
      assert e[i].offset == offset;
    } else {
      assert e[|d|].offset == offset;
    }
  }

  lemma OffsetsStep(d: seq<Window>, front: seq<Window>, last: Window, e: seq<Window>)
    requires d != [] && KeepsOffsets(d, front)
    requires e == if d[|d| - 1].offset == last.offset then d else d + [last]
    ensures KeepsOffsets(e, front + [last])
  {
    var s := front + [last];
    forall k | 0 <= k < |s| ensures Starts(e, s[k].offset) {
      if k < |front| { assert s[k] == front[k]; }
      if e != d { StartsMore(d, last, s[k].offset); }
    }
  }

  lemma PairMore(d: seq<Window>, e: seq<Window>, i: nat, front: seq<Window>, last: Window)
    requires 0 < i < |d| && d <= e && FromPair(d, i, front)
    ensures FromPair(e, i, front + [last])
  {
    var a, b := d[i - 1].offset, d[i].offset;
    var k: nat :| Beside(front, k, a, b);
    assert Beside(front + [last], k, a, b);
  }

  lemma NeighboursStep(d: seq<Window>, front: seq<Window>, last: Window, e: seq<Window>)
    requires d != [] && front != [] && FromNeighbours(d, front) && d[|d| - 1].offset == front[|front| - 1].offset
    requires e == if d[|d| - 1].offset == last.offset then d else d + [last]
    ensures FromNeighbours(e, front + [last])
  {
    forall i: nat | 0 < i < |e| ensures FromPair(e, i, front + [last]) {
      if i < |d| {
        PairMore(d, e, i, front, last);
      } else {
        assert Beside(front + [last], |front|, e[i - 1].offset, e[i].offset);
      }
    }
  }

  lemma DedupMore(front: seq<Window>, last: Window, d: seq<Window>, e: seq<Window>)
    requires front != [] && Climbing(front) && d == Dedup(front) && e == Dedup(front + [last])
    requires KeepsOffsets(d, front) && FromNeighbours(d, front)
    ensures e != [] && KeepsOffsets(e, front + [last]) && FromNeighbours(e, front + [last])
  {
    DedupFacts(front);
    DedupStep(front, last);
    OffsetsStep(d, front, last, e);
    NeighboursStep(d, front, last, e);
  }

  lemma {:induction false} DedupKeeps(s: seq<Window>)
    requires s != [] && Climbing(s)
    ensures Dedup(s) != [] && KeepsOffsets(Dedup(s), s) && FromNeighbours(Dedup(s), s)
    decreases |s|
  {
    if |s| == 1 {
      forall k | 0 <= k < |s| ensures Starts(s, s[k].offset) { assert s[k].offset == s[0].offset; }
    } else {
      var front, last := s[..|s| - 1], s[|s| - 1];
      assert s == front + [last];
      ClimbingFront(s);
      DedupKeeps(front);
      DedupMore(front, last, Dedup(front), Dedup(s));
    }
  }

  /** Nothing is dropped where nothing repeats. */
  lemma {:induction false} DedupNothing(s: seq<Window>)
    requires Increasing(s)
    ensures Dedup(s) == s
    decreases |s|
  {
    if |s| > 1 {
      var front, last := s[..|s| - 1], s[|s| - 1];
      DedupNothing(front);
      DedupStep(front, last);
      assert s == front + [last];
    }
  }

  // ---------------------------------------------------------------- arithmetic of the offsets

  lemma QuotientIs(x: nat, d: nat, low: nat, high: nat)
    requires d > 0 && low * d <= x < high * d
    ensures low <= x / d < high
  {
    assert x / d * d <= x < (x / d + 1) * d;
    if x / d < low { TimesMonotone(x / d + 1, low, d); }
    if x / d >= high { TimesMonotone(high, x / d, d); }
  }

  lemma QuotientBounds(x: nat, d: nat, q: nat)
    requires d > 0 && q == x / d
    ensures q * d <= x < q * d + d
  {
  }

  lemma SumTimes(a: nat, b: nat, d: nat)
    ensures (a + b) * d == a * d + b * d && (a + b + 2) * d == a * d + b * d + d + d
  {
  }

  /** One step of the ideal offsets is the quotient of the span, or one more. */
  lemma QuotientStep(x: nat, span: nat, d: nat)
    requires d > 0
    ensures x / d + span / d <= (x + span) / d <= x / d + span / d + 1
  {
    var a, q := x / d, span / d;
    QuotientBounds(x, d, a);
    QuotientBounds(span, d, q);
    SumTimes(a, q, d);
    QuotientIs(x + span, d, a + q, a + q + 2);
  }

  lemma AlignClose(n: nat)
    ensures AlignDown(n) <= n < AlignDown(n) + 4096
  {
  }

  /** What the windows before the last start at, whatever saturates. */
  lemma OffsetNearIdeal(k: nat, n: nat, span: nat)
    requires n >= 2 && k < n - 1
    ensures Offset(k, n, span) <= Ideal(k, n, span) < Offset(k, n, span) + 4096
  {
    AlignClose(Ideal(k, n, span));
  }

  lemma WholeQuotient(span: nat, d: nat)
    requires d > 0
    ensures d * span / d == span
  {
    assert d * span == span * d;
    QuotientIs(span * d, d, span, span + 1);
  }

  /** Neighbouring offsets, as long as the product does not saturate. */
  lemma OffsetStep(k: nat, n: nat, span: nat)
    requires n >= 2 && k + 1 < n && span > 0 && (n - 2) * span <= U64_MAX
    ensures Offset(k + 1, n, span) <= Offset(k, n, span) + span / (n - 1) + 4096
    ensures span / (n - 1) >= 4096 ==> Offset(k, n, span) < Offset(k + 1, n, span)
  {
    var d := n - 1;
    TimesMonotone(k, n - 2, span);
    assert (k + 1) * span == k * span + span;
    QuotientStep(k * span, span, d);
    OffsetNearIdeal(k, n, span);
    if k + 1 < d {
      TimesMonotone(k + 1, n - 2, span);
      OffsetNearIdeal(k + 1, n, span);
    } else {
      WholeQuotient(span, d);
      OffsetBeforeSpan(k, n, span);
    }
  }

  // ---------------------------------------------------------------- the windows of a large file

  /** The `k`th of `n` evenly spread starting points in a span. */
  ghost function EvenStart(k: nat, span: nat, n: nat): nat
    requires n >= 2
  {
    k * span / (n - 1)
  }

  /** The file is larger than all its windows together. */
  ghost predicate Large(p: Params, size: nat) {
    ParamsOk(p) && p.chunks * p.chunkLen < size <= U64_MAX
  }

  /** How far the last window starts from the first. */
  ghost function Span(p: Params, size: nat): (span: nat)
    requires Large(p, size)
    ensures 0 < span == size - p.chunkLen
  {
    SpanPositive(p, size);
    size - p.chunkLen
  }

  /** The even distance of two windows. */
  ghost function Stride(p: Params, size: nat): nat
    requires Large(p, size)
  {
    EvenStart(1, Span(p, size), p.chunks)
  }

  ghost predicate NothingSaturates(p: Params, size: nat)
    requires Large(p, size)
  {
    (p.chunks - 2) * Span(p, size) <= U64_MAX
  }

  /** The windows before repeats are dropped. */
  lemma LargeWindows(p: Params, size: nat, span: nat) returns (raw: seq<Window>)
    requires Large(p, size) && span == Span(p, size)
    ensures |raw| == p.chunks
    ensures forall i :: 0 <= i < |raw| ==> raw[i] == Window(Offset(i, p.chunks, span), p.chunkLen)
    ensures Windows(p, size) == Dedup(raw) && Climbing(raw) && raw[|raw| - 2].offset < raw[|raw| - 1].offset
  {
    raw := Spread(p, span);
    RawIsSound(p, size, raw);
  }

  /** The last window is the end of the file. */
  lemma LastWindow(p: Params, size: nat)
    requires Large(p, size)
    ensures var ws := Windows(p, size); ws != [] && ws[|ws| - 1] == Window(size - p.chunkLen, p.chunkLen)
  {
    var raw := LargeWindows(p, size, Span(p, size));
    DedupLast(raw);
  }

  /** Near every ideal start a window starts, whatever saturates. */
  lemma SomeWindowNear(p: Params, size: nat, k: nat, span: nat) returns (w: Window)
    requires Large(p, size) && k < p.chunks - 1 && span == Span(p, size)
    ensures w in Windows(p, size) && StartsJustBefore(w, Ideal(k, p.chunks, span))
  {
    var raw := LargeWindows(p, size, span);
    DedupKeeps(raw);
    var ws := Windows(p, size);
    var i :| 0 <= i < |ws| && ws[i].offset == raw[k].offset;
    OffsetNearIdeal(k, p.chunks, span);
    w := ws[i];
  }

  lemma IdealIsEven(k: nat, n: nat, span: nat)
    requires n >= 2 && k < n - 1 && (n - 2) * span <= U64_MAX
    ensures Ideal(k, n, span) == EvenStart(k, span, n)
  {
    TimesMonotone(k, n - 2, span);
  }

  /**
   * In a file larger than all its windows together, as long as no product leaves the `u64`: for each of the evenly
   * spread starting points but the last, some window starts at most 4095 bytes before it.
   */
  lemma WindowsAreSpread(p: Params, size: nat, k: nat)
    requires Large(p, size) && NothingSaturates(p, size) && k < p.chunks - 1
    ensures exists w :: w in Windows(p, size) && StartsJustBefore(w, EvenStart(k, Span(p, size), p.chunks))
  {
    var w := SomeWindowNear(p, size, k, Span(p, size));
    IdealIsEven(k, p.chunks, Span(p, size));
  }

  lemma GapOf(raw: seq<Window>, ws: seq<Window>, i: nat, n: nat, span: nat)
    requires n == |raw| >= 2 && span > 0 && (n - 2) * span <= U64_MAX
    requires forall k :: 0 <= k < n ==> raw[k].offset == Offset(k, n, span)
    requires FromNeighbours(ws, raw) && 0 < i < |ws|
    ensures ws[i].offset <= ws[i - 1].offset + EvenStart(1, span, n) + 4096
  {
    assert FromPair(ws, i, raw);
    var a, b := ws[i - 1].offset, ws[i].offset;
    var k: nat :| Beside(raw, k, a, b);
    OffsetStep(k - 1, n, span);
  }

  lemma AllRise(raw: seq<Window>, n: nat, span: nat)
    requires n == |raw| >= 2 && span > 0 && (n - 2) * span <= U64_MAX && EvenStart(1, span, n) >= 4096
    requires forall k :: 0 <= k < n ==> raw[k].offset == Offset(k, n, span)
    ensures Increasing(raw)
  {
    forall k | 0 < k < |raw| ensures raw[k - 1].offset < raw[k].offset { OffsetStep(k - 1, n, span); }
    forall i, j | 0 <= i < j < |raw| ensures raw[i].offset < raw[j].offset { StepsIncrease(raw, i, j); }
  }

  /** Neighbouring windows start at most the even distance and one page apart. */
  lemma NoWideGap(p: Params, size: nat, i: nat)
    requires Large(p, size) && NothingSaturates(p, size) && 0 < i < |Windows(p, size)|
    ensures Windows(p, size)[i].offset <= Windows(p, size)[i - 1].offset + Stride(p, size) + 4096
  {
    var span := Span(p, size);
    var raw := LargeWindows(p, size, span);
    DedupKeeps(raw);
    var ws := Windows(p, size);
    GapOf(raw, ws, i, p.chunks, span);
  }

  lemma {:induction false} StepsIncrease(s: seq<Window>, i: nat, j: nat)
    requires i < j < |s| && forall k :: 0 < k < |s| ==> s[k - 1].offset < s[k].offset
    ensures s[i].offset < s[j].offset
    decreases j
  {
    assert s[j - 1].offset < s[j].offset;
    if i < j - 1 { StepsIncrease(s, i, j - 1); }
  }

  /** No window is lost to alignment once the even distance is a page. */
  lemma AllWindowsRemain(p: Params, size: nat)
    requires Large(p, size) && NothingSaturates(p, size) && Stride(p, size) >= 4096
    ensures |Windows(p, size)| == p.chunks
  {
    var span := Span(p, size);
    var raw := LargeWindows(p, size, span);
    AllRise(raw, p.chunks, span);
    DedupNothing(raw);
  }
}
