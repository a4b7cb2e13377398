/**
 The decimal text that the battery services keep in files: what "%d" prints and what
 "%d %d ... %d" scans (ISO C11 sections 7.21.6.1 and 7.21.6.2).

 A conversion whose value does not fit an int is undefined in C; here it yields the
 mathematical value.
 */
module Decimal {
  const INT_MIN := -0x8000_0000
  const INT_MAX := 0x7fff_ffff

  predicate IsInt32(n: int) { INT_MIN <= n <= INT_MAX }

  // ---------- printing ----------

  function Digit(d: nat): (c: char)
    requires d < 10
    ensures IsDigit(c) && DigitValue(c) == d
  {
    '0' + d as char
  }

  function PrintNat(n: nat): (s: string)
    ensures s != [] && AllDigits(s)
    ensures Value(s) == n
  {
    if n < 10 then [Digit(n)] else PrintNat(n / 10) + [Digit(n % 10)]
  }

  /** "%d" */
  function PrintInt(n: int): string {
    if n < 0 then "-" + PrintNat(-n) else PrintNat(n)
  }

  /** "%d %d ... %d", one conversion for each value. */
  function PrintInts(v: seq<int>): string {
    if |v| == 0 then ""
    else if |v| == 1 then PrintInt(v[0])
    else PrintInt(v[0]) + " " + PrintInts(v[1..])
  }

  /** What snprintf leaves in a buffer of `size` bytes, the terminating NUL taken off. */
  function Snprintf(size: nat, text: string): string
    requires size > 0
  {
    if |text| < size then text else text[..size - 1]
  }

  // ---------- scanning ----------

  predicate IsSpace(c: char) { c in {' ', '\t', '\n', '\r', 11 as char, 12 as char} }

  predicate IsDigit(c: char) { '0' <= c <= '9' }

  predicate AllDigits(s: string) { forall i :: 0 <= i < |s| ==> IsDigit(s[i]) }

  function DigitValue(c: char): nat
    requires IsDigit(c)
  {
    (c - '0') as nat
  }

  function Value(s: string): nat
    requires AllDigits(s)
  {
    if s == [] then 0 else Value(s[..|s| - 1]) * 10 + DigitValue(s[|s| - 1])
  }

  function SkipSpace(s: string): string {
    if s != [] && IsSpace(s[0]) then SkipSpace(s[1..]) else s
  }

  /** The longest prefix of digits. */
  function DigitRun(s: string): (d: string)
    ensures d <= s && AllDigits(d)
  {
    if s != [] && IsDigit(s[0]) then [s[0]] + DigitRun(s[1..]) else []
  }

  datatype Scan = Matched(value: int, rest: string) | NoMatch

  /** One "%d" conversion. */
  function ScanInt(s: string): Scan {
    var t := SkipSpace(s);
    if t != [] && t[0] == '-' then ScanDigits(t[1..], true)
    else if t != [] && t[0] == '+' then ScanDigits(t[1..], false)
    else ScanDigits(t, false)
  }

  function ScanDigits(s: string, negative: bool): Scan {
    var d := DigitRun(s);
    if d == [] then NoMatch
    else Matched(if negative then 0 - Value(d) else Value(d), s[|d|..])
  }

  /** The values that "%d %d ... %d" with k conversions assigns before it stops. The blank
      between two conversions skips white space, which "%d" skips anyway. */
  function ScanInts(s: string, k: nat): (v: seq<int>)
    ensures |v| <= k
    decreases k
  {
    if k == 0 then []
    else match ScanInt(s)
      case NoMatch => []
      case Matched(n, rest) => [n] + ScanInts(rest, k - 1)
  }

  /** android::base::Trim */
  function Trim(s: string): string {
    TrimRight(SkipSpace(s))
  }

  function TrimRight(s: string): string {
    if s != [] && IsSpace(s[|s| - 1]) then TrimRight(s[..|s| - 1]) else s
  }

  // ---------- round trips ----------

  predicate EndsNumber(rest: string) { rest == [] || !IsDigit(rest[0]) }

  lemma {:induction false} DigitRunStops(a: string, rest: string)
    requires AllDigits(a) && EndsNumber(rest)
    ensures DigitRun(a + rest) == a
  {
    if a == [] {
      assert a + rest == rest;
    } else {
      assert (a + rest)[1..] == a[1..] + rest;
      DigitRunStops(a[1..], rest);
    }
  }

  lemma ScanDigitsStops(d: string, rest: string, negative: bool)
    requires d != [] && AllDigits(d) && EndsNumber(rest)
    ensures ScanDigits(d + rest, negative) == Matched(if negative then 0 - Value(d) else Value(d), rest)
  {
    DigitRunStops(d, rest);
    assert (d + rest)[|d|..] == rest;
  }

  lemma ScanIntAfterPrintInt(n: int, rest: string)
    requires EndsNumber(rest)
    ensures ScanInt(PrintInt(n) + rest) == Matched(n, rest)
  {
    hide ScanDigits, DigitRun, PrintNat, Value;
    var d := PrintNat(if n < 0 then -n else n);
    ScanDigitsStops(d, rest, n < 0);
    var s := d + rest;
    assert s[0] == d[0] && IsDigit(d[0]);
    if n < 0 {
      assert PrintInt(n) + rest == "-" + s;
      assert ("-" + s)[1..] == s;
    }
  }

  /** The value of digits with a sign in front. */
  function Signed(sign: string, digits: string): int
    requires AllDigits(digits)
  {
    if sign == "-" then 0 - Value(digits) else Value(digits)
  }

  predicate AllSpace(s: string) { forall i :: 0 <= i < |s| ==> IsSpace(s[i]) }

  /** White space is the blank and the five control characters from tab to carriage return. */
  lemma WhiteSpace(c: char)
    ensures IsSpace(c) <==> c == ' ' || 9 <= c as int <= 13
  {
  }

  lemma {:induction false} SkipSpaceStops(blanks: string, t: string)
    requires AllSpace(blanks) && (t == "" || !IsSpace(t[0]))
    ensures SkipSpace(blanks + t) == t
  {
    if blanks == "" {
      assert blanks + t == t;
    } else {
      assert (blanks + t)[1..] == blanks[1..] + t;
      SkipSpaceStops(blanks[1..], t);
    }
  }

  /** "%d" matches white space, a sign if there is one, and all the digits that follow. */
  lemma ScanIntMatches(blanks: string, sign: string, digits: string, rest: string)
    requires AllSpace(blanks) && sign in {"", "-", "+"} && digits != "" && AllDigits(digits) && EndsNumber(rest)
    ensures ScanInt(blanks + sign + digits + rest) == Matched(Signed(sign, digits), rest)
  {
    hide ScanDigits, SkipSpace, Value;
    var t := sign + (digits + rest);
    assert t[0] == if sign == "" then digits[0] else sign[0];
    SkipSpaceStops(blanks, t);
    assert blanks + sign + digits + rest == blanks + t;
    ScanDigitsStops(digits, rest, sign == "-");
    assert t[|sign|..] == digits + rest;
  }

  lemma ScanDigitsMatched(s: string, negative: bool)
    requires ScanDigits(s, negative).Matched?
    ensures var d, rest := DigitRun(s), ScanDigits(s, negative).rest;
            && d != "" && s == d + rest && EndsNumber(rest)
            && ScanDigits(s, negative).value == if negative then 0 - Value(d) else Value(d)
  {
    hide Value;
    DigitRunEnds(s);
  }

  function SignOf(t: string): string { if t != [] && (t[0] == '-' || t[0] == '+') then [t[0]] else "" }

  lemma SignedMatched(s: string)
    requires ScanInt(s).Matched?
    ensures var t := SkipSpace(s);
            var sign := SignOf(t);
            var digits, rest := DigitRun(t[|sign|..]), ScanInt(s).rest;
            && digits != "" && EndsNumber(rest) && t[|sign|..] == digits + rest
            && ScanInt(s).value == Signed(sign, digits)
  {
    hide ScanDigits, Value, DigitRun, SkipSpace;
    var t := SkipSpace(s);
    ScanDigitsMatched(t[|SignOf(t)|..], SignOf(t) == "-");
  }

  /** If it matches, the text has that form. */
  lemma ScanIntMatched(s: string) returns (blanks: string, sign: string, digits: string)
    requires ScanInt(s).Matched?
    ensures AllSpace(blanks) && (sign == "" || sign == "-" || sign == "+") && digits != "" && AllDigits(digits)
    ensures EndsNumber(ScanInt(s).rest) && s == blanks + sign + digits + ScanInt(s).rest
    ensures ScanInt(s).value == Signed(sign, digits)
  {
    hide ScanInt, Value, DigitRun, SkipSpace;
    blanks := LeadingSpace(s);
    SignedMatched(s);
    var t, rest := SkipSpace(s), ScanInt(s).rest;
    sign := SignOf(t);
    digits := DigitRun(t[|sign|..]);
    assert t == sign + t[|sign|..];
    assert blanks + (sign + (digits + rest)) == blanks + sign + digits + rest;
  }

  lemma {:induction false} LeadingSpace(s: string) returns (blanks: string)
    ensures AllSpace(blanks) && s == blanks + SkipSpace(s)
  {
    blanks := "";
    if s != [] && IsSpace(s[0]) {
      var more := LeadingSpace(s[1..]);
      blanks := [s[0]] + more;
    }
  }

  lemma {:induction false} DigitRunEnds(s: string)
    ensures EndsNumber(s[|DigitRun(s)|..])
  {
    if s != [] && IsDigit(s[0]) {
      DigitRunEnds(s[1..]);
      assert s[|DigitRun(s)|..] == s[1..][|DigitRun(s[1..])|..];
    }
  }

  lemma LeadingSpaceIsSkipped(s: string, k: nat)
    ensures ScanInts(" " + s, k) == ScanInts(s, k)
  {
    assert (" " + s)[1..] == s;
  }

  lemma {:induction false} ScanIntsAfterPrintInts(v: seq<int>, rest: string)
    requires rest == [] || IsSpace(rest[0])
    ensures ScanInts(PrintInts(v) + rest, |v|) == v
  {
    if |v| == 1 {
      ScanIntAfterPrintInt(v[0], rest);
      assert ScanInts(rest, 0) == [];
    } else if |v| > 1 {
      ScanFirst(v, rest);
      ScanIntsAfterPrintInts(v[1..], rest);
    }
  }

  lemma ScanFirst(v: seq<int>, rest: string)
    requires |v| > 1
    ensures ScanInts(PrintInts(v) + rest, |v|) == [v[0]] + ScanInts(PrintInts(v[1..]) + rest, |v| - 1)
  {
    var tail := PrintInts(v[1..]) + rest;
    PrintIntsUnfold(v, rest);
    ScanIntAfterPrintInt(v[0], " " + tail);
    ScanStep(PrintInt(v[0]) + (" " + tail), v[0], " " + tail, |v|);
    LeadingSpaceIsSkipped(tail, |v| - 1);
  }

  lemma PrintIntsUnfold(v: seq<int>, rest: string)
    requires |v| > 1
    ensures PrintInts(v) + rest == PrintInt(v[0]) + (" " + (PrintInts(v[1..]) + rest))
  {
    hide PrintInt;
    Regroup(PrintInt(v[0]), " ", PrintInts(v[1..]), rest);
  }

  lemma Regroup(a: string, b: string, c: string, d: string)
    ensures a + b + c + d == a + (b + (c + d))
  {
  }

  lemma ScanStep(s: string, n: int, rest: string, k: nat)
    requires k > 0 && ScanInt(s) == Matched(n, rest)
    ensures ScanInts(s, k) == [n] + ScanInts(rest, k - 1)
  {
  }

  /** Printed text has no white space at either end, so Trim leaves it alone. */
  lemma {:induction false} PrintIntsIsTrimmed(v: seq<int>)
    requires v != []
    ensures var s := PrintInts(v); s != [] && !IsSpace(s[0]) && !IsSpace(s[|s| - 1])
    ensures Trim(PrintInts(v)) == PrintInts(v)
  {
    if |v| > 1 {
      PrintIntsIsTrimmed(v[1..]);
    }
  }

  lemma {:induction false} TrimDropsTrailingSpace(s: string, blanks: string)
    requires s != [] && !IsSpace(s[0]) && !IsSpace(s[|s| - 1])
    requires forall i :: 0 <= i < |blanks| ==> IsSpace(blanks[i])
    ensures Trim(s + blanks) == s
  {
    if blanks == [] {
      assert s + blanks == s;
    } else {
      var b := blanks[..|blanks| - 1];
      assert (s + blanks)[..|s + blanks| - 1] == s + b;
      TrimDropsTrailingSpace(s, b);
    }
  }

  // ---------- lengths ----------

  function Pow10(k: nat): nat { if k == 0 then 1 else 10 * Pow10(k - 1) }

  lemma {:induction false} PrintNatLength(n: nat, k: nat)
    requires k > 0 && n < Pow10(k)
    ensures |PrintNat(n)| <= k
  {
    if n >= 10 {
      PrintNatLength(n / 10, k - 1);
    }
  }

  lemma PrintIntLength(n: int)
    requires IsInt32(n)
    ensures |PrintInt(n)| <= 11
  {
    assert Pow10(10) == 10_000_000_000 by {
      assert Pow10(5) == 100_000;
      assert Pow10(10) == 100_000 * Pow10(5);
    }
    PrintNatLength(if n < 0 then -n else n, 10);
  }

  lemma {:induction false} PrintIntsLength(v: seq<int>)
    requires v != [] && forall i :: 0 <= i < |v| ==> IsInt32(v[i])
    ensures |PrintInts(v)| <= 12 * |v| - 1
  {
    PrintIntLength(v[0]);
    if |v| > 1 {
      PrintIntsLength(v[1..]);
    }
  }

  lemma PrintNatInjective(m: nat, n: nat)
    requires PrintNat(m) == PrintNat(n)
    ensures m == n
  {
    assert Value(PrintNat(m)) == Value(PrintNat(n));
  }
}
