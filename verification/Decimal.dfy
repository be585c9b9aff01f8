/** Decimal notation of naturals, as string conversion of an index gives it. */
module Decimal {

  function Digit(d: nat): char
    requires d < 10
  {
    "0123456789"[d]
  }

  function ToString(n: nat): string {
    if n < 10 then [Digit(n)] else ToString(n / 10) + [Digit(n % 10)]
  }

  lemma {:induction false} DigitInjective(c: nat, d: nat)
    requires c < 10 && d < 10 && Digit(c) == Digit(d)
    ensures c == d
  {
  }

  /** No two naturals share their notation. */
  lemma {:induction false} Injective(m: nat, n: nat)
    requires ToString(m) == ToString(n)
    ensures m == n
  {
    var s, t := ToString(m), ToString(n);
    assert s[|s| - 1] == Digit(m % 10) && t[|t| - 1] == Digit(n % 10);
    DigitInjective(m % 10, n % 10);
    if m >= 10 && n >= 10 {
      assert s[..|s| - 1] == ToString(m / 10) && t[..|t| - 1] == ToString(n / 10);
      Injective(m / 10, n / 10);
    }
  }

  lemma {:induction false} OnlyDigits(n: nat)
    ensures ToString(n) != []
    ensures forall c :: c in ToString(n) ==> '0' <= c <= '9'
  {
    if n >= 10 {
      OnlyDigits(n / 10);
    }
  }
}
