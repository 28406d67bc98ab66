/** Decimal rendering of non-negative integers, as JavaScript's string
    concatenation `'…' + n` produces it for the integer values the SDK
    appends to keys and identifiers (array indices, timestamps, random
    numbers). */
module Decimal {

  predicate IsDigit(c: char) {
    '0' <= c <= '9'
  }

  predicate AllDigits(s: string) {
    forall i :: 0 <= i < |s| ==> IsDigit(s[i])
  }

  function Digit(d: nat): (c: char)
    requires d < 10
    ensures IsDigit(c)
  {
    (('0' as int) + d) as char
  }

  function DigitValue(c: char): (d: nat)
    requires IsDigit(c)
    ensures d < 10
  {
    (c as int) - ('0' as int)
  }

  /** The shortest decimal numeral of `n`, most significant digit first. */
  function NatStr(n: nat): (s: string)
    ensures 1 <= |s| && AllDigits(s)
    ensures |s| == 1 <==> n < 10
  {
    if n < 10 then [Digit(n)] else NatStr(n / 10) + [Digit(n % 10)]
  }

  /** The value of a non-empty numeral. */
  function ParseDigits(s: string): nat
    requires 1 <= |s| && AllDigits(s)
  {
    if |s| == 1 then DigitValue(s[0])
    else 10 * ParseDigits(s[..|s| - 1]) + DigitValue(s[|s| - 1])
  }

  /** Reading back a rendered number gives the number. */
  lemma {:induction false} ParseNatStr(n: nat)
    ensures ParseDigits(NatStr(n)) == n
  {
    if n >= 10 {
      var s := NatStr(n);
      assert s[..|s| - 1] == NatStr(n / 10);
      ParseNatStr(n / 10);
    }
  }

  /** Distinct numbers render to distinct numerals. */
  lemma NatStrInjective(a: nat, b: nat)
    ensures NatStr(a) == NatStr(b) <==> a == b
  {
    if NatStr(a) == NatStr(b) {
      ParseNatStr(a);
      ParseNatStr(b);
    }
  }
}
