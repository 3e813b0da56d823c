/** Decimal rendering of the numbers the models put into their messages:
    Python's `str` of a non-negative int, and of a float already rounded
    to one decimal place. */
module Text {

  predicate IsDigit(c: char) { '0' <= c <= '9' }

  function DigitChar(d: nat): (c: char)
    requires d < 10
    ensures IsDigit(c)
    ensures DigitValue(c) == d
  {
    "0123456789"[d]
  }

  function DigitValue(c: char): (d: nat)
    requires IsDigit(c)
    ensures d < 10
  {
    (c as int) - ('0' as int)
  }

  /** Python's `str(n)` for `n >= 0`: decimal digits, no leading zero. */
  function NatToString(n: nat): (s: string)
    ensures |s| >= 1
    ensures forall i :: 0 <= i < |s| ==> IsDigit(s[i])
    ensures |s| > 1 ==> s[0] != '0'
  {
    if n < 10 then [DigitChar(n)] else NatToString(n / 10) + [DigitChar(n % 10)]
  }

  /** The number a string of decimal digits denotes. */
  function DigitsValue(s: string): nat
    requires forall i :: 0 <= i < |s| ==> IsDigit(s[i])
  {
    if s == [] then 0 else 10 * DigitsValue(s[..|s| - 1]) + DigitValue(s[|s| - 1])
  }

  /** Reading back the rendered digits gives the number. */
  lemma {:induction false} NatToStringRoundTrip(n: nat)
    ensures DigitsValue(NatToString(n)) == n
  {
    if n >= 10 {
      NatToStringRoundTrip(n / 10);
      var s := NatToString(n);
      assert s[..|s| - 1] == NatToString(n / 10);
    }
  }

  /** Python's `str(x)` for a float `x == t / 10` with `t >= 0`: the whole
      part, a point and exactly one decimal digit ("5.5", "10.0"). */
  function TenthsToString(t: nat): (s: string)
    ensures |s| >= 3 && s[|s| - 2] == '.' && IsDigit(s[|s| - 1])
    ensures DigitValue(s[|s| - 1]) == t % 10
    ensures s[..|s| - 2] == NatToString(t / 10)
  {
    NatToString(t / 10) + "." + [DigitChar(t % 10)]
  }

  /** The rendered score reads back as the same number of tenths. */
  lemma TenthsToStringRoundTrip(t: nat)
    ensures var s := TenthsToString(t);
      10 * DigitsValue(s[..|s| - 2]) + DigitValue(s[|s| - 1]) == t
  {
    NatToStringRoundTrip(t / 10);
  }
}
