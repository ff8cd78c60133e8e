/**
 * The two C library number conversions the record format relies on:
 * `ltoa(n, buf, 10)`, which writes a long in decimal, and `atol(s)`, which
 * reads one back with the rules of section 7.22.1.4 of ISO/IEC 9899:2011
 * (strtol with base 10): skip leading white space, take an optional sign,
 * then the longest run of decimal digits; no digits gives 0.
 * Integers are unbounded here: overflow of a long is not modelled.
 */
module CNumbers {

  predicate IsDigit(c: char) {
    '0' <= c <= '9'
  }

  /** White space as isspace classifies it in the "C" locale. */
  predicate IsSpace(c: char) {
    c == ' ' || c == '\t' || c == '\n' || c == '\U{000B}' || c == '\U{000C}' || c == '\r'
  }

  predicate AllDigits(s: string) {
    forall i :: 0 <= i < |s| ==> IsDigit(s[i])
  }

  function DigitChar(d: nat): (c: char)
    requires d < 10
    ensures IsDigit(c) && c as int - '0' as int == d
  {
    ('0' as int + d) as char
  }

  /** Decimal digits of a non-negative number, most significant first, without leading zeros. */
  function Digits(n: nat): (s: string)
    ensures |s| > 0 && AllDigits(s)
    ensures |s| > 1 ==> s[0] != '0'
    decreases n
  {
    if n < 10 then [DigitChar(n)] else Digits(n / 10) + [DigitChar(n % 10)]
  }

  /** Text `ltoa(n, buf, 10)` writes: a '-' for a negative value, then the digits of its magnitude. */
  function Ltoa(n: int): (s: string)
    ensures |s| > 0
    ensures forall i :: 0 <= i < |s| ==> IsDigit(s[i]) || (i == 0 && s[i] == '-')
    ensures s[0] == '-' <==> n < 0
  {
    if n < 0 then "-" + Digits(-n) else Digits(n)
  }

  /** Value of a run of digits read left to right, as strtol accumulates it. */
  function DigitsValue(s: string): nat
    requires AllDigits(s)
  {
    if s == [] then 0 else DigitsValue(s[..|s| - 1]) * 10 + (s[|s| - 1] as int - '0' as int)
  }

  /** The longest prefix of `s` made of digits. */
  function LeadingDigits(s: string): (p: string)
    ensures p <= s && AllDigits(p)
    ensures |p| < |s| ==> !IsDigit(s[|p|])
  {
    if s != [] && IsDigit(s[0]) then [s[0]] + LeadingDigits(s[1..]) else []
  }

  /** `s` with its leading white space removed. */
  function SkipSpace(s: string): (t: string)
    ensures |t| <= |s|
    ensures t != [] ==> !IsSpace(t[0])
    ensures forall i :: 0 <= i < |s| - |t| ==> IsSpace(s[i])
  {
    if s != [] && IsSpace(s[0]) then SkipSpace(s[1..]) else s
  }

  /** What SkipSpace leaves is a suffix of its input: only leading characters are removed. */
  lemma {:induction false} SkipSpaceIsSuffix(s: string)
    ensures SkipSpace(s) == s[|s| - |SkipSpace(s)|..]
  {
    if s != [] && IsSpace(s[0]) {
      SkipSpaceIsSuffix(s[1..]);
    }
  }

  /** `atol(s)`: the value of the number at the head of `s`, 0 when there is none. */
  function Atol(s: string): int {
    var t := SkipSpace(s);
    if t != [] && t[0] == '-' then -(DigitsValue(LeadingDigits(t[1..])) as int)
    else if t != [] && t[0] == '+' then DigitsValue(LeadingDigits(t[1..]))
    else DigitsValue(LeadingDigits(t))
  }

  /**
   * How atol reads after the leading white space: only a '-' sign gives a
   * negative value, and text that starts with neither a digit nor a sign
   * reads as 0.
   */
  lemma AtolReading(s: string)
    ensures var t := SkipSpace(s);
            && (Atol(s) < 0 ==> t != [] && t[0] == '-')
            && (t == [] || !(IsDigit(t[0]) || t[0] == '-' || t[0] == '+') ==> Atol(s) == 0)
  {
  }

  lemma {:induction false} DigitsValueOfDigits(n: nat)
    ensures DigitsValue(Digits(n)) == n
    decreases n
  {
    if n >= 10 {
      var s := Digits(n);
      assert s[..|s| - 1] == Digits(n / 10);
      DigitsValueOfDigits(n / 10);
    }
  }

  lemma {:induction false} LeadingDigitsOfAppend(ds: string, tail: string)
    requires AllDigits(ds)
    requires tail == [] || !IsDigit(tail[0])
    ensures LeadingDigits(ds + tail) == ds
  {
    if ds != [] {
      assert (ds + tail)[1..] == ds[1..] + tail;
      LeadingDigitsOfAppend(ds[1..], tail);
    }
  }

  /** atol of a run of digits followed by a non-digit: the value of the run. */
  lemma AtolOfDigits(ds: string, tail: string)
    requires ds != [] && AllDigits(ds)
    requires tail == [] || !IsDigit(tail[0])
    ensures Atol(ds + tail) == DigitsValue(ds)
  {
    var s := ds + tail;
    assert s[0] == ds[0];
    assert SkipSpace(s) == s;
    LeadingDigitsOfAppend(ds, tail);
  }

  /** atol of a minus sign, a run of digits and a non-digit: minus the value of the run. */
  lemma AtolOfNegated(ds: string, tail: string)
    requires AllDigits(ds)
    requires tail == [] || !IsDigit(tail[0])
    ensures Atol(['-'] + (ds + tail)) == -(DigitsValue(ds) as int)
  {
    var s := ['-'] + (ds + tail);
    assert SkipSpace(s) == s;
    assert s[1..] == ds + tail;
    LeadingDigitsOfAppend(ds, tail);
  }

  /**
   * atol reads back what ltoa wrote, whatever follows the number as long
   * as it does not begin with a digit.
   */
  lemma AtolOfLtoa(n: int, tail: string)
    requires tail == [] || !IsDigit(tail[0])
    ensures Atol(Ltoa(n) + tail) == n
  {
    if n < 0 {
      var ds := Digits(-n);
      assert Ltoa(n) + tail == ['-'] + (ds + tail);
      AtolOfNegated(ds, tail);
      DigitsValueOfDigits(-n);
    } else {
      AtolOfDigits(Digits(n), tail);
      DigitsValueOfDigits(n);
    }
  }
}
