/** Sizes and durations of the configuration: the parser and the printer undo each other. */
module Units {
  import opened Wrappers
  import opened Decimal

  datatype ParseError = Empty | NoDigits | BadNumber | BadUnit | Overflow

  const I64_MAX := 0x7FFF_FFFF_FFFF_FFFF
  const I64_MIN := -0x8000_0000_0000_0000

  /** White_Space of Unicode. */
  predicate IsSpace(c: char) {
    || '\U{9}' <= c <= '\U{D}' || c == ' ' || c == '\U{85}' || c == '\U{A0}' || c == '\U{1680}'
    || '\U{2000}' <= c <= '\U{200A}' || c == '\U{2028}' || c == '\U{2029}' || c == '\U{202F}'
    || c == '\U{205F}' || c == '\U{3000}'
  }

  function TrimLeft(s: string): string {
    if s != "" && IsSpace(s[0]) then TrimLeft(s[1..]) else s
  }

  function TrimRight(s: string): string {
    if s != "" && IsSpace(s[|s| - 1]) then TrimRight(s[..|s| - 1]) else s
  }

  function Trim(s: string): string { TrimRight(TrimLeft(s)) }

  function Lower(s: string): (r: string)
    ensures |r| == |s|
  {
    seq(|s|, i requires 0 <= i < |s| => if 'A' <= s[i] <= 'Z' then (s[i] as int + 32) as char else s[i])
  }

  function DigitsEnd(s: string): (n: nat)
    ensures n <= |s| && AllDigits(s[..n]) && (n < |s| ==> !IsDigit(s[n]))
  {
    if s == "" || !IsDigit(s[0]) then 0
    else
      var n := 1 + DigitsEnd(s[1..]);
      assert forall i :: 0 < i < n ==> s[i] == s[1..][i - 1] && IsDigit(s[1..][..n - 1][i - 1]);
      n
  }

  function SplitNumber(s: string): Result<(nat, string), ParseError> {
    var t := Trim(s);
    if t == "" then Err(Empty)
    else
      var n := DigitsEnd(t);
      if n == 0 then Err(NoDigits)
      else if ValueOf(t[..n]) > U64_MAX then Err(BadNumber)
      else Ok((ValueOf(t[..n]), Trim(t[n..])))
  }

  function ByteUnit(unit: string): Option<nat> {
    var u := Lower(unit);
    if u == "" || u == "b" then Some(1)
    else if u == "k" || u == "kb" || u == "kib" then Some(0x400)
    else if u == "m" || u == "mb" || u == "mib" then Some(0x10_0000)
    else if u == "g" || u == "gb" || u == "gib" then Some(0x4000_0000)
    else if u == "t" || u == "tb" || u == "tib" then Some(0x100_0000_0000)
    else None
  }

  function TimeUnit(unit: string): Option<nat> {
    var u := Lower(unit);
    if u == "ms" then Some(1)
    else if u == "" || u == "s" || u == "sec" then Some(1000)
    else if u == "m" || u == "min" then Some(60_000)
    else if u == "h" || u == "hr" then Some(3_600_000)
    else if u == "d" || u == "day" then Some(86_400_000)
    else None
  }

  /** The number times its unit, if it stays within `most`. */
  function Scaled(number: Result<(nat, string), ParseError>, unit: string -> Option<nat>, most: nat)
    : Result<nat, ParseError>
  {
    match number
    case Err(e) => Err(e)
    case Ok((n, u)) =>
      match unit(u)
      case None => Err(BadUnit)
      case Some(mult) => if n * mult > most then Err(Overflow) else Ok(n * mult)
  }

  function ParseBytes(s: string): Result<nat, ParseError> {
    Scaled(SplitNumber(s), ByteUnit, U64_MAX)
  }

  function ParseDurationMs(s: string): Result<nat, ParseError> {
    Scaled(SplitNumber(s), TimeUnit, I64_MAX)
  }

  // ---------------------------------------------------------------- printing

  datatype Unit = Unit(mult: nat, name: string)

  const BYTE_UNITS := [Unit(0x100_0000_0000, "TiB"), Unit(0x4000_0000, "GiB"), Unit(0x10_0000, "MiB"),
                       Unit(0x400, "KiB")]
  const TIME_UNITS := [Unit(86_400_000, "d"), Unit(3_600_000, "h"), Unit(60_000, "m"), Unit(1000, "s")]

  /** The first unit of the table that divides the number, else the smallest one. */
  function FirstUnit(units: seq<Unit>, n: nat, smallest: string): (u: Unit)
    requires forall i :: 0 <= i < |units| ==> units[i].mult >= 1
    ensures u in units || u == Unit(1, smallest)
    ensures u.mult >= 1 && n % u.mult == 0
  {
    if units == [] then Unit(1, smallest)
    else if n >= units[0].mult && n % units[0].mult == 0 then units[0]
    else FirstUnit(units[1..], n, smallest)
  }

  function Printed(n: nat, u: Unit): string
    requires u.mult >= 1
  {
    Digits(n / u.mult) + u.name
  }

  function FormatBytes(n: nat): string { Printed(n, FirstUnit(BYTE_UNITS, n, "B")) }

  function FormatDuration(ms: int): string {
    if ms < 0 then "-" + Digits(-ms) + "ms" else Printed(ms, FirstUnit(TIME_UNITS, ms, "ms"))
  }

  // ---------------------------------------------------------------- round trips

  /** A unit name: letters only. */
  ghost predicate IsName(s: string) {
    s != "" && forall i :: 0 <= i < |s| ==> 'A' <= s[i] <= 'z'
  }

  lemma TrimSolid(s: string)
    requires s != "" && !IsSpace(s[0]) && !IsSpace(s[|s| - 1])
    ensures Trim(s) == s
  {
  }

  lemma {:induction false} DigitsEndAt(d: string, name: string)
    requires AllDigits(d) && IsName(name)
    ensures DigitsEnd(d + name) == |d|
  {
    if d == "" {
      assert d + name == name;
    } else {
      assert (d + name)[1..] == d[1..] + name;
      DigitsEndAt(d[1..], name);
    }
  }

  lemma SplitPrinted(k: nat, name: string)
    requires k <= U64_MAX && IsName(name)
    ensures SplitNumber(Digits(k) + name) == Ok((k, name))
  {
    var d := Digits(k);
    var s := d + name;
    assert IsDigit(s[0]) && s[|s| - 1] == name[|name| - 1];
    TrimSolid(s);
    DigitsEndAt(d, name);
    assert s[..|d|] == d && s[|d|..] == name;
    ValueOfDigits(k);
    TrimSolid(name);
  }

  lemma ExactQuotient(n: nat, m: nat)
    requires m >= 1 && n % m == 0
    ensures n / m * m == n && n / m <= n
  {
  }

  lemma LowerIs(s: string, t: string)
    requires |s| == |t|
    requires forall i :: 0 <= i < |s| ==>
      t[i] == if 'A' <= s[i] <= 'Z' then (s[i] as int + 32) as char else s[i]
    ensures Lower(s) == t
  {
  }

  lemma ByteUnitNames(u: Unit)
    requires u in BYTE_UNITS || u == Unit(1, "B")
    ensures IsName(u.name) && ByteUnit(u.name) == Some(u.mult)
  {
    LowerIs("TiB", "tib");
    LowerIs("GiB", "gib");
    LowerIs("MiB", "mib");
    LowerIs("KiB", "kib");
    LowerIs("B", "b");
    assert "tib"[0] != "gib"[0] && "tib"[0] != "mib"[0] && "tib"[0] != "kib"[0];
    assert "gib"[0] != "mib"[0] && "gib"[0] != "kib"[0] && "mib"[0] != "kib"[0];
  }

  lemma TimeUnitNames(u: Unit)
    requires u in TIME_UNITS || u == Unit(1, "ms")
    ensures IsName(u.name) && TimeUnit(u.name) == Some(u.mult)
  {
    LowerIs("d", "d");
    LowerIs("h", "h");
    LowerIs("m", "m");
    LowerIs("s", "s");
    LowerIs("ms", "ms");
    assert "d"[0] != "h"[0] && "d"[0] != "m"[0] && "d"[0] != "s"[0] && "h"[0] != "m"[0] && "h"[0] != "s"[0]
           && "m"[0] != "s"[0];
  }

  ghost predicate LargestFirst(units: seq<Unit>) {
    && (forall i :: 0 <= i < |units| ==> units[i].mult >= 1)
    && (forall i, j :: 0 <= i < j < |units| ==> units[i].mult > units[j].mult)
  }

  /** A number is printed in the largest unit that it is a multiple of. */
  lemma {:induction false} PrintedInLargest(units: seq<Unit>, n: nat, smallest: string, i: nat)
    requires LargestFirst(units) && i < |units| && n >= units[i].mult && n % units[i].mult == 0
    ensures units[i].mult <= FirstUnit(units, n, smallest).mult
  {
    if !(n >= units[0].mult && n % units[0].mult == 0) { PrintedInLargest(units[1..], n, smallest, i - 1); }
  }

  /** Every u64 survives printing and parsing. */
  lemma BytesRoundTrip(n: nat)
    requires n <= U64_MAX
    ensures ParseBytes(FormatBytes(n)) == Ok(n)
  {
    var u := FirstUnit(BYTE_UNITS, n, "B");
    ExactQuotient(n, u.mult);
    ByteUnitNames(u);
    SplitPrinted(n / u.mult, u.name);
  }

  /** An i64 of milliseconds survives printing and parsing exactly when it is not negative. */
  lemma DurationRoundTrip(ms: int)
    requires I64_MIN <= ms <= I64_MAX
    ensures ParseDurationMs(FormatDuration(ms)) == Ok(ms) <==> ms >= 0
    ensures ms < 0 ==> ParseDurationMs(FormatDuration(ms)) == Err(NoDigits)
  {
    if ms >= 0 {
      var u := FirstUnit(TIME_UNITS, ms, "ms");
      ExactQuotient(ms, u.mult);
      TimeUnitNames(u);
      SplitPrinted(ms / u.mult, u.name);
    } else {
      var s := FormatDuration(ms);
      assert s[0] == '-' && s[|s| - 1] == "ms"[1];
      TrimSolid(s);
    }
  }
}
