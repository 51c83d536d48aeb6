/** PHP's conversion of an integer to a string, as string interpolation
    `"{$n}"` performs it: decimal digits, a leading '-' for negatives. The
    parser below is its inverse and shows the rendered number can be read back. */
module Decimal {

  predicate IsDigit(c: char) {
    '0' <= c <= '9'
  }

  predicate AllDigits(s: string) {
    forall i :: 0 <= i < |s| ==> IsDigit(s[i])
  }

  function DigitChar(d: nat): (c: char)
    requires d < 10
    ensures IsDigit(c) && c as int - '0' as int == d
  {
    ('0' as int + d) as char
  }

  /** The decimal digits of `n`, most significant first, without leading zeros. */
  function NatToString(n: nat): (s: string)
    ensures |s| > 0 && AllDigits(s)
    ensures s[0] == '0' ==> n == 0
  {
    if n < 10 then [DigitChar(n)] else NatToString(n / 10) + [DigitChar(n % 10)]
  }

  function IntToString(i: int): (s: string)
    ensures |s| > 0
    ensures forall k :: 0 <= k < |s| ==> IsDigit(s[k]) || s[k] == '-'
  {
    if i < 0 then "-" + NatToString(-i) else NatToString(i)
  }

  /** The number a string of decimal digits denotes. */
  function DigitsValue(s: string): nat
    requires AllDigits(s)
  {
    if s == [] then 0 else DigitsValue(s[..|s| - 1]) * 10 + (s[|s| - 1] as int - '0' as int)
  }

  /** The strings `IntToString` can produce: an optional '-' followed by digits. */
  predicate IsIntLiteral(s: string) {
    if |s| > 0 && s[0] == '-' then |s| > 1 && AllDigits(s[1..]) else |s| > 0 && AllDigits(s)
  }

  function ParseInt(s: string): int
    requires IsIntLiteral(s)
  {
    var magnitude: int := if s[0] == '-' then DigitsValue(s[1..]) else DigitsValue(s);
    if s[0] == '-' then -magnitude else magnitude
  }

  lemma {:induction false} DigitsValueOfNatToString(n: nat)
    ensures DigitsValue(NatToString(n)) == n
  {
    if n >= 10 {
      var s := NatToString(n);
      assert s[..|s| - 1] == NatToString(n / 10);
      DigitsValueOfNatToString(n / 10);
    }
  }

  /** Reading a rendered integer back gives the integer: the rendering is injective. */
  lemma IntToStringRoundTrip(i: int)
    ensures IsIntLiteral(IntToString(i))
    ensures ParseInt(IntToString(i)) == i
  {
    var s := IntToString(i);
    if i < 0 {
      assert s[1..] == NatToString(-i);
      DigitsValueOfNatToString(-i);
    } else {
      DigitsValueOfNatToString(i);
    }
  }

  /** The rendering is "0" exactly for zero, so `empty()` on the rendering agrees with `empty()` on the number. */
  lemma IntToStringZero(i: int)
    ensures IntToString(i) == "0" <==> i == 0
  {
    if IntToString(i) == "0" {
      IntToStringRoundTrip(i);
    }
  }
}
