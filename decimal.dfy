/** Decimal text of natural numbers, as Rust's `Display` prints an unsigned
    integer inside `format!`, together with the reading direction that shows
    the text is unambiguous. */
module Decimal {

  import opened Common

  predicate IsDigit(c: char)
  {
    '0' <= c <= '9'
  }

  predicate AllDigits(s: string)
  {
    forall i :: 0 <= i < |s| ==> IsDigit(s[i])
  }

  function DigitChar(d: nat): (c: char)
    requires d < 10
    ensures IsDigit(c)
  {
    (('0' as int) + d) as char
  }

  function DigitValue(c: char): (d: nat)
    requires IsDigit(c)
    ensures d < 10 && DigitChar(d) == c
  {
    (c as int) - ('0' as int)
  }

  /** The value of a string of decimal digits, most significant first. */
  function DigitsValue(s: string): nat
    requires AllDigits(s)
  {
    if |s| == 0 then 0 else DigitsValue(s[..|s| - 1]) * 10 + DigitValue(s[|s| - 1])
  }

  /** `n.to_string()`: at least one digit, no leading zero, and reading the
      digits back gives `n`. */
  function NatToString(n: nat): (s: string)
    ensures |s| >= 1 && AllDigits(s)
    ensures s[0] == '0' <==> n == 0
    ensures n == 0 ==> s == "0"
    ensures DigitsValue(s) == n
    decreases n
  {
    if n < 10 then [DigitChar(n)]
    else
      var prefix := NatToString(n / 10);
      var s := prefix + [DigitChar(n % 10)];
      assert s[..|s| - 1] == prefix;
      s
  }

  /** The number of decimal digits at the front of `s`. */
  function LeadingDigits(s: string): (k: nat)
    ensures k <= |s|
    ensures AllDigits(s[..k])
    ensures k < |s| ==> !IsDigit(s[k])
  {
    if |s| == 0 || !IsDigit(s[0]) then 0
    else
      var k := 1 + LeadingDigits(s[1..]);
      assert s[..k] == [s[0]] + s[1..][..k - 1];
      k
  }

  /** Reads a number written in decimal followed by exactly `unit`
      (`"42ms"` with unit `"ms"` gives 42). */
  function ParseNatThen(s: string, unit: string): Option<nat>
  {
    var k := LeadingDigits(s);
    if k > 0 && s[k..] == unit then Some(DigitsValue(s[..k])) else None
  }

  /** The digits of a number end where a non-digit begins. */
  lemma {:induction false} LeadingDigitsOfConcat(d: string, t: string)
    requires AllDigits(d)
    requires |t| == 0 || !IsDigit(t[0])
    ensures LeadingDigits(d + t) == |d|
    decreases |d|
  {
    if |d| > 0 {
      assert (d + t)[1..] == d[1..] + t;
      LeadingDigitsOfConcat(d[1..], t);
    }
  }

  /** Round trip: a decimal number followed by a unit suffix is read back as
      that number. */
  lemma ParseNatThenOfNatToString(n: nat, unit: string)
    requires |unit| == 0 || !IsDigit(unit[0])
    ensures ParseNatThen(NatToString(n) + unit, unit) == Some(n)
  {
    var d := NatToString(n);
    LeadingDigitsOfConcat(d, unit);
    assert (d + unit)[..|d|] == d;
    assert (d + unit)[|d|..] == unit;
  }
}
