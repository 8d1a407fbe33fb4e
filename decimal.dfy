/**
 * Decimal digit strings: how an integer is written into a string
 * (`ORD-${Date.now()}`, `'mock_' + Date.now()`) and how digits are read back.
 */
module Decimal {

  predicate IsDigit(c: char) {
    '0' <= c <= '9'
  }

  predicate AllDigits(s: string) {
    forall i :: 0 <= i < |s| ==> IsDigit(s[i])
  }

  function DigitChar(d: nat): char
    requires d < 10
  {
    (('0' as int) + d) as char
  }

  function DigitValue(c: char): nat
    requires IsDigit(c)
  {
    c as int - '0' as int
  }

  /** The decimal rendering of a natural number: digits only, no leading zero. */
  function Render(n: nat): (s: string)
    ensures 1 <= |s| && AllDigits(s)
    ensures s[0] == '0' <==> n == 0
    decreases n
  {
    if n < 10 then [DigitChar(n)] else Render(n / 10) + [DigitChar(n % 10)]
  }

  /** The number a string of decimal digits denotes (most significant digit first). */
  function Value(s: string): nat
    requires AllDigits(s)
  {
    if s == [] then 0 else Value(s[..|s| - 1]) * 10 + DigitValue(s[|s| - 1])
  }

  /** Reading back a rendered number gives the number. */
  lemma {:induction false} ValueOfRender(n: nat)
    ensures Value(Render(n)) == n
  {
    var s := Render(n);
    if n >= 10 {
      assert s[..|s| - 1] == Render(n / 10);
      ValueOfRender(n / 10);
    }
  }

  /** Rendering is injective: distinct numbers give distinct strings. */
  lemma {:induction false} RenderInjective(m: nat, n: nat)
    ensures Render(m) == Render(n) ==> m == n
  {
    ValueOfRender(m);
    ValueOfRender(n);
  }
}
