/** The parts of java.lang.String, Integer, Long and chan.util.StringUtils that the
    parsers and configurations rely on, over `string`: a sequence of Unicode scalar
    values, one position per character, where Java counts UTF-16 units. */
module JavaText {
  import opened Wrappers

  // ---------------------------------------------------------------- characters

  predicate IsDigit(c: char) { '0' <= c <= '9' }

  predicate AllDigits(s: string) { forall i :: 0 <= i < |s| ==> IsDigit(s[i]) }

  /** String.trim() strips every character whose code is at most U+0020. */
  predicate IsTrimmable(c: char) { c <= ' ' }

  predicate AllTrimmable(s: string) { forall i :: 0 <= i < |s| ==> IsTrimmable(s[i]) }

  // ---------------------------------------------------------------- occurrences

  /** `sub` occurs in `s` starting at index `i` (String.startsWith(sub, i)). */
  predicate OccursAt(s: string, sub: string, i: int) {
    0 <= i && i + |sub| <= |s| && s[i..i + |sub|] == sub
  }

  predicate StartsWith(s: string, prefix: string) { OccursAt(s, prefix, 0) }

  predicate EndsWith(s: string, suffix: string) {
    |suffix| <= |s| && OccursAt(s, suffix, |s| - |suffix|)
  }

  /** String.indexOf(sub, from): the first occurrence at or after `from`, or -1. */
  function IndexOfFrom(s: string, sub: string, from: nat): (r: int)
    ensures r == -1 || (from <= r && OccursAt(s, sub, r))
    ensures forall i :: from <= i && (r == -1 || i < r) ==> !OccursAt(s, sub, i)
    decreases |s| - from
  {
    if from + |sub| > |s| then -1
    else if s[from..from + |sub|] == sub then from
    else IndexOfFrom(s, sub, from + 1)
  }

  /** String.contains(sub). */
  function Contains(s: string, sub: string): (b: bool)
    ensures b <==> exists i :: OccursAt(s, sub, i)
  {
    IndexOfFrom(s, sub, 0) >= 0
  }

  /** String.lastIndexOf(sub) restricted to occurrences starting at or before `from`. */
  function LastIndexAtOrBefore(s: string, sub: string, from: int): (r: int)
    ensures r == -1 || (r <= from && OccursAt(s, sub, r))
    ensures forall i :: r < i <= from ==> !OccursAt(s, sub, i)
    decreases if from < 0 then 0 else from + 1
  {
    if from < 0 then -1
    else if OccursAt(s, sub, from) then from
    else LastIndexAtOrBefore(s, sub, from - 1)
  }

  /** String.lastIndexOf(sub): the start of the last occurrence, or -1 when there is none. */
  function LastIndexOf(s: string, sub: string): (r: int)
    ensures r == -1 || OccursAt(s, sub, r)
    ensures forall i :: r < i ==> !OccursAt(s, sub, i)
  {
    LastIndexAtOrBefore(s, sub, |s| - |sub|)
  }

  // ---------------------------------------------------------------- trim

  /** Index of the first character String.trim() keeps. */
  function TrimStart(s: string, from: nat): (a: nat)
    requires from <= |s|
    requires forall i :: 0 <= i < from ==> IsTrimmable(s[i])
    ensures from <= a <= |s|
    ensures forall i :: 0 <= i < a ==> IsTrimmable(s[i])
    ensures a < |s| ==> !IsTrimmable(s[a])
    decreases |s| - from
  {
    if from < |s| && IsTrimmable(s[from]) then TrimStart(s, from + 1) else from
  }

  /** Index just past the last character String.trim() keeps, never below `lo`. */
  function TrimEnd(s: string, lo: nat, hi: nat): (b: nat)
    requires lo <= hi <= |s|
    requires forall i :: hi <= i < |s| ==> IsTrimmable(s[i])
    ensures lo <= b <= hi
    ensures forall i :: b <= i < |s| ==> IsTrimmable(s[i])
    ensures b > lo ==> !IsTrimmable(s[b - 1])
    decreases hi
  {
    if hi > lo && IsTrimmable(s[hi - 1]) then TrimEnd(s, lo, hi - 1) else hi
  }

  /** `r` is what is left of `s` once a trimmable prefix of length `a` and a trimmable
      suffix are cut off. */
  predicate TrimmedAt(s: string, r: string, a: int) {
    0 <= a && a + |r| <= |s| && s[a..a + |r|] == r
    && AllTrimmable(s[..a]) && AllTrimmable(s[a + |r|..])
  }

  /** String.trim(). */
  function Trim(s: string): (r: string)
    ensures exists a :: TrimmedAt(s, r, a)
    ensures r == [] || (!IsTrimmable(r[0]) && !IsTrimmable(r[|r| - 1]))
  {
    var a := TrimStart(s, 0);
    var b := TrimEnd(s, a, |s|);
    assert TrimmedAt(s, s[a..b], a);
    s[a..b]
  }

  /** Trimming twice is trimming once. */
  lemma TrimIdempotent(s: string)
    ensures Trim(Trim(s)) == Trim(s)
  {
    var r := Trim(s);
    if r != [] {
      assert TrimStart(r, 0) == 0;
      assert TrimEnd(r, 0, |r|) == |r|;
    }
  }

  // ---------------------------------------------------------------- StringUtils

  /** StringUtils.nullIfEmpty. */
  function NullIfEmpty(s: string): (r: Option<string>)
    ensures r.None? <==> s == []
    ensures r.Some? ==> r.value == s
  {
    if s == [] then None else Some(s)
  }

  /** StringUtils.emptyIfNull. */
  function EmptyIfNull(s: Option<string>): (r: string)
    ensures s.Some? ==> r == s.value
    ensures s.None? ==> r == []
  {
    s.GetOr([])
  }

  /** String.toLowerCase for the ASCII letters (other characters are kept). */
  function LowerChar(c: char): char {
    if 'A' <= c <= 'Z' then ((c as int) + 32) as char else c
  }

  function ToLowerAscii(s: string): (r: string)
    ensures |r| == |s|
    ensures forall i :: 0 <= i < |s| ==> r[i] == LowerChar(s[i])
  {
    seq(|s|, i requires 0 <= i < |s| => LowerChar(s[i]))
  }

  // ---------------------------------------------------------------- numbers

  const INT_MIN: int := -0x8000_0000
  const INT_MAX: int := 0x7fff_ffff
  const LONG_MIN: int := -0x8000_0000_0000_0000
  const LONG_MAX: int := 0x7fff_ffff_ffff_ffff

  /** Java int arithmetic: two's-complement wrap-around to 32 bits. */
  function WrapInt(x: int): (r: int)
    ensures INT_MIN <= r <= INT_MAX
    ensures (r - x) % 0x1_0000_0000 == 0
    ensures INT_MIN <= x <= INT_MAX ==> r == x
  {
    (x - INT_MIN) % 0x1_0000_0000 + INT_MIN
  }

  /** Java long arithmetic: two's-complement wrap-around to 64 bits. */
  function WrapLong(x: int): (r: int)
    ensures LONG_MIN <= r <= LONG_MAX
    ensures (r - x) % 0x1_0000_0000_0000_0000 == 0
    ensures LONG_MIN <= x <= LONG_MAX ==> r == x
  {
    (x - LONG_MIN) % 0x1_0000_0000_0000_0000 + LONG_MIN
  }

  function DigitValue(c: char): nat
    requires IsDigit(c)
  {
    (c as int) - ('0' as int)
  }

  function DigitChar(d: nat): (c: char)
    requires d < 10
    ensures IsDigit(c) && DigitValue(c) == d
  {
    (('0' as int) + d) as char
  }

  /** The value of a string of decimal digits, most significant first. */
  function DigitsValue(s: string): nat
    requires AllDigits(s)
  {
    if s == [] then 0 else 10 * DigitsValue(s[..|s| - 1]) + DigitValue(s[|s| - 1])
  }

  /** Integer.parseInt / Long.parseLong in radix 10, with the type's range [lo, hi]:
      an optional '-' or '+', then at least one digit, and a value in range.
      None stands for NumberFormatException. */
  function ParseDecimal(s: string, lo: int, hi: int): (r: Option<int>)
    ensures r.Some? ==> lo <= r.value <= hi
    ensures r.Some? ==> |s| > 0 && (IsDigit(s[0]) || s[0] == '-' || s[0] == '+')
    ensures r.Some? ==> forall i :: 0 < i < |s| ==> IsDigit(s[i])
    ensures r.Some? && r.value < 0 ==> s[0] == '-'
  {
    var signed := |s| > 0 && (s[0] == '-' || s[0] == '+');
    var digits := if signed then s[1..] else s;
    if digits == [] || !AllDigits(digits) then None
    else
      var v: int := if signed && s[0] == '-' then 0 - DigitsValue(digits) else DigitsValue(digits);
      if lo <= v <= hi then Some(v) else None
  }

  /** Integer.parseInt(s). */
  function ParseInt(s: string): (r: Option<int>)
    ensures r.Some? ==> INT_MIN <= r.value <= INT_MAX
  {
    ParseDecimal(s, INT_MIN, INT_MAX)
  }

  /** Long.parseLong(s). */
  function ParseLong(s: string): (r: Option<int>)
    ensures r.Some? ==> LONG_MIN <= r.value <= LONG_MAX
  {
    ParseDecimal(s, LONG_MIN, LONG_MAX)
  }

  /** Integer.parseInt(null) and Long.parseLong(null) throw like a malformed string. */
  function ParseIntOrNull(s: Option<string>): (r: Option<int>)
    ensures s.None? ==> r.None?
    ensures r.Some? ==> INT_MIN <= r.value <= INT_MAX
  {
    if s.None? then None else ParseInt(s.value)
  }

  /** Integer.toString / Long.toString of a natural number. */
  function NatToDecimal(n: nat): (s: string)
    ensures s != [] && AllDigits(s)
  {
    if n < 10 then [DigitChar(n)] else NatToDecimal(n / 10) + [DigitChar(n % 10)]
  }

  function IntToDecimal(n: int): (s: string) {
    if n < 0 then "-" + NatToDecimal(-n) else NatToDecimal(n)
  }

  lemma {:induction false} NatToDecimalValue(n: nat)
    ensures DigitsValue(NatToDecimal(n)) == n
  {
    var s := NatToDecimal(n);
    if n >= 10 {
      NatToDecimalValue(n / 10);
      assert s[..|s| - 1] == NatToDecimal(n / 10);
    }
  }

  /** Parsing what Integer.toString / Long.toString prints gives the number back. */
  lemma ParseDecimalRoundTrip(n: int, lo: int, hi: int)
    requires lo <= n <= hi
    ensures ParseDecimal(IntToDecimal(n), lo, hi) == Some(n)
  {
    var s := IntToDecimal(n);
    if n < 0 {
      var m := NatToDecimal(-n);
      NatToDecimalValue(-n);
      assert s[0] == '-' && s[1..] == m;
      assert ParseDecimal(s, lo, hi) == if lo <= 0 - DigitsValue(m) <= hi then Some(0 - DigitsValue(m)) else None;
    } else {
      NatToDecimalValue(n);
      assert IsDigit(s[0]);
      ParseDigits(s, lo, hi);
    }
  }

  /** A plain run of digits whose value fits parses to that value. */
  lemma ParseDigits(s: string, lo: int, hi: int)
    requires s != [] && AllDigits(s) && lo <= DigitsValue(s) <= hi
    ensures ParseDecimal(s, lo, hi) == Some(DigitsValue(s))
  {
  }

  /** Every well-formed decimal parses: an optional sign and digits give their value
      when it is in range, and NumberFormatException only when it is not. */
  lemma ParseDecimalSigned(sign: string, d: string, lo: int, hi: int)
    requires sign == "" || sign == "+" || sign == "-"
    requires d != [] && AllDigits(d)
    ensures var v := if sign == "-" then 0 - DigitsValue(d) else DigitsValue(d);
      ParseDecimal(sign + d, lo, hi) == if lo <= v <= hi then Some(v) else None
  {
    var s := sign + d;
    if sign == "" {
      assert s == d && IsDigit(s[0]);
    } else {
      assert s[0] == sign[0] && s[1..] == d;
    }
  }

  // ---------------------------------------------------------------- digit runs

  /** End of the maximal run of ASCII digits starting at `i`. */
  function RunEnd(s: string, i: nat): (j: nat)
    requires i <= |s|
    ensures i <= j <= |s|
    ensures forall k :: i <= k < j ==> IsDigit(s[k])
    ensures j < |s| ==> !IsDigit(s[j])
    decreases |s| - i
  {
    if i < |s| && IsDigit(s[i]) then RunEnd(s, i + 1) else i
  }

  /** Index of the first ASCII digit at or after `from`, or |s|. */
  function FirstDigitFrom(s: string, from: nat): (i: nat)
    requires from <= |s|
    ensures from <= i <= |s|
    ensures i < |s| ==> IsDigit(s[i])
    ensures forall k :: from <= k < i ==> !IsDigit(s[k])
    decreases |s| - from
  {
    if from < |s| && !IsDigit(s[from]) then FirstDigitFrom(s, from + 1) else from
  }

  /** Pattern "\\d+" with Matcher.find() and group(): the leftmost maximal digit run. */
  function FirstNumber(s: string): (r: Option<string>)
    ensures r.None? <==> forall k :: 0 <= k < |s| ==> !IsDigit(s[k])
    ensures r.Some? ==> r.value != [] && AllDigits(r.value)
    ensures r.Some? ==> OccursAt(s, r.value, FirstDigitFrom(s, 0))
    ensures r.Some? ==> var e := FirstDigitFrom(s, 0) + |r.value|; e == |s| || !IsDigit(s[e])
  {
    var i := FirstDigitFrom(s, 0);
    if i == |s| then None else Some(s[i..RunEnd(s, i)])
  }

  /** A counter read with "\\d+" and Integer.parseInt is never negative: the run has no sign. */
  lemma FirstNumberNonNegative(text: string)
    requires FirstNumber(text).Some? && ParseInt(FirstNumber(text).value).Some?
    ensures ParseInt(FirstNumber(text).value).value >= 0
  {
  }
}
