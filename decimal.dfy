/**
 * `Date.now().toString()`: the decimal rendering of a JavaScript time value.
 * A time value is an integral number of milliseconds whose magnitude is at
 * most 8.64e15 (ECMAScript, section 21.4.1 "Time Values and Time Range");
 * every such number is below 1e21, so `Number.prototype.toString` writes it
 * as plain decimal digits with an optional leading minus sign.
 */
module Decimal {

  const MaxTimeValue: int := 8_640_000_000_000_000

  type TimeValue = t: int | -MaxTimeValue <= t <= MaxTimeValue

  predicate IsDigit(c: char)
  {
    '0' <= c <= '9'
  }

  predicate AllDigits(s: string)
  {
    forall i :: 0 <= i < |s| ==> IsDigit(s[i])
  }

  function DigitChar(d: nat): (c: char)
    requires d < 10
    ensures IsDigit(c)
  {
    ('0' as int + d) as char
  }

  function DigitValue(c: char): (d: nat)
    requires IsDigit(c)
    ensures d < 10 && DigitChar(d) == c
  {
    c as int - '0' as int
  }

  /** Decimal digits of `n`, most significant first, without leading zeros. */
  function NatToString(n: nat): (s: string)
    ensures |s| >= 1 && AllDigits(s)
    ensures |s| > 1 ==> s[0] != '0'
    ensures n < 10 <==> |s| == 1
    decreases n
  {
    if n < 10 then [DigitChar(n)] else NatToString(n / 10) + [DigitChar(n % 10)]
  }

  /** `t.toString()` for a time value `t`. */
  function ToString(t: TimeValue): (s: string)
    ensures t >= 0 ==> |s| >= 1 && AllDigits(s)
    ensures t < 0 ==> |s| >= 2 && s[0] == '-' && AllDigits(s[1..])
  {
    if t < 0 then "-" + NatToString(-t) else NatToString(t)
  }

  /** Reads a string of decimal digits back as a number: the inverse of NatToString. */
  function ParseNat(s: string): nat
    requires AllDigits(s)
  {
    if s == [] then 0 else 10 * ParseNat(s[..|s| - 1]) + DigitValue(s[|s| - 1])
  }

  /** Reads an optionally signed decimal string back as an integer. */
  function Parse(s: string): int
    requires if |s| > 0 && s[0] == '-' then AllDigits(s[1..]) else AllDigits(s)
  {
    if |s| > 0 && s[0] == '-' then -(ParseNat(s[1..]) as int) else ParseNat(s)
  }

  lemma {:induction false} ParseNatToString(n: nat)
    ensures ParseNat(NatToString(n)) == n
    decreases n
  {
    if n >= 10 {
      var s := NatToString(n);
      assert s[..|s| - 1] == NatToString(n / 10);
      ParseNatToString(n / 10);
    }
  }

  /** Rendering a time value and reading it back gives the same value. */
  lemma ParseToString(t: TimeValue)
    ensures Parse(ToString(t)) == t
  {
    var s := ToString(t);
    if t < 0 {
      assert s[1..] == NatToString(-t);
      ParseNatToString(-t);
    } else {
      ParseNatToString(t);
    }
  }

  /** Distinct time values render to distinct strings. */
  lemma ToStringInjective(a: TimeValue, b: TimeValue)
    ensures ToString(a) == ToString(b) ==> a == b
  {
    ParseToString(a);
    ParseToString(b);
  }
}
