/**
 * The decimal rendering of integers that `strconv.Itoa` performs, written out
 * so that its properties can be proved: the text is a canonical decimal
 * numeral, and reading it back (`ParseDecimal`) yields the integer again, so
 * distinct integers never render to the same text.
 */
module Strconv {

  import opened Wrappers

  predicate IsDigit(c: char) {
    '0' <= c <= '9'
  }

  predicate AllDigits(s: string) {
    forall i :: 0 <= i < |s| ==> IsDigit(s[i])
  }

  function DigitChar(d: nat): (c: char)
    requires d < 10
    ensures IsDigit(c)
  {
    ('0' as int + d) as char
  }

  function DigitValue(c: char): (d: nat)
    requires IsDigit(c)
    ensures d < 10
  {
    c as int - '0' as int
  }

  /** The digits of `n`, most significant first, without leading zeros. */
  function NatToDecimal(n: nat): (s: string)
    ensures |s| >= 1 && AllDigits(s)
    ensures s[0] == '0' ==> n == 0 && |s| == 1
    decreases n
  {
    if n < 10 then [DigitChar(n)] else NatToDecimal(n / 10) + [DigitChar(n % 10)]
  }

  /** The number a string of digits denotes (the empty string denotes 0). */
  function DecimalValue(s: string): nat
    requires AllDigits(s)
    decreases |s|
  {
    if s == [] then 0 else DecimalValue(s[..|s| - 1]) * 10 + DigitValue(s[|s| - 1])
  }

  /** `strconv.Itoa`: a minus sign for negative numbers, then the digits of the magnitude. */
  function IntToDecimal(n: int): (s: string)
    ensures |s| >= 1
    ensures s[0] == '-' <==> n < 0
    ensures AllDigits(if n < 0 then s[1..] else s)
  {
    if n < 0 then "-" + NatToDecimal(-n) else NatToDecimal(n)
  }

  /** Reference inverse of `IntToDecimal`: an optional minus sign followed by at least one digit. */
  function ParseDecimal(s: string): Option<int> {
    if |s| >= 2 && s[0] == '-' && AllDigits(s[1..]) then Some(0 - DecimalValue(s[1..]) as int)
    else if |s| >= 1 && AllDigits(s) then Some(DecimalValue(s))
    else None
  }

  lemma {:induction false} DecimalValueOfNatToDecimal(n: nat)
    ensures DecimalValue(NatToDecimal(n)) == n
    decreases n
  {
    if n >= 10 {
      var s := NatToDecimal(n / 10);
      var t := s + [DigitChar(n % 10)];
      assert t[..|t| - 1] == s;
      DecimalValueOfNatToDecimal(n / 10);
    }
  }

  /** Reading the rendering of `n` back gives `n`. */
  lemma ParseIntToDecimal(n: int)
    ensures ParseDecimal(IntToDecimal(n)) == Some(n)
  {
    var s := IntToDecimal(n);
    if n < 0 {
      assert s[1..] == NatToDecimal(-n);
      DecimalValueOfNatToDecimal(-n);
    } else {
      DecimalValueOfNatToDecimal(n);
    }
  }

  /** Distinct integers render to distinct text. */
  lemma IntToDecimalInjective(a: int, b: int)
    ensures IntToDecimal(a) == IntToDecimal(b) <==> a == b
  {
    ParseIntToDecimal(a);
    ParseIntToDecimal(b);
  }

}
