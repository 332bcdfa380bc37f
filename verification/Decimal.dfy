/** Decimal text of integers, as Python's str() and json.dumps() write it, and its reader. */
module Decimal {

  predicate IsDigit(c: char) { '0' <= c <= '9' }

  predicate AllDigits(s: string) { forall i :: 0 <= i < |s| ==> IsDigit(s[i]) }

  function DigitChar(d: nat): (c: char)
    requires d < 10
    ensures IsDigit(c) && c as int - '0' as int == d
  {
    ('0' as int + d) as char
  }

  function DigitValue(c: char): (d: nat)
    requires IsDigit(c)
    ensures d < 10 && DigitChar(d) == c
  {
    c as int - '0' as int
  }

  function Digits(n: nat): (s: string)
    ensures |s| >= 1 && AllDigits(s)
  {
    if n < 10 then [DigitChar(n)] else Digits(n / 10) + [DigitChar(n % 10)]
  }

  function Number(s: string): nat
    requires AllDigits(s)
  {
    if s == [] then 0 else Number(s[..|s| - 1]) * 10 + DigitValue(s[|s| - 1])
  }

  lemma {:induction false} NumberOfDigits(n: nat)
    ensures Number(Digits(n)) == n
  {
    if n >= 10 {
      NumberOfDigits(n / 10);
      var s := Digits(n);
      assert s[..|s| - 1] == Digits(n / 10);
      assert s[|s| - 1] == DigitChar(n % 10);
    } else {
      assert Digits(n)[..0] == [];
    }
  }

  /** Decimal text of an integer: str(i). */
  function IntText(i: int): (s: string)
    ensures IsIntLexeme(s)
  {
    if i < 0 then "-" + Digits(-i) else Digits(i)
  }

  predicate IsIntLexeme(s: string) {
    |s| >= 1 && if s[0] == '-' then |s| >= 2 && AllDigits(s[1..]) else AllDigits(s)
  }

  function IntValue(s: string): int
    requires IsIntLexeme(s)
  {
    if s[0] == '-' then -(Number(s[1..]) as int) else Number(s)
  }

  lemma IntValueOfText(i: int)
    ensures IntValue(IntText(i)) == i
  {
    if i < 0 {
      NumberOfDigits(-i);
      assert IntText(i)[1..] == Digits(-i);
    } else {
      NumberOfDigits(i);
      assert IsDigit(Digits(i)[0]);
    }
  }
}
