/** Printing numbers in decimal. */
module Decimal {

  function Digit(d: nat): char
    requires d < 10
  {
    ('0' as int + d) as char
  }

  predicate IsDigit(c: char) { '0' <= c <= '9' }

  function DigitValue(c: char): (d: nat)
    requires IsDigit(c)
    ensures d < 10
  {
    c as int - '0' as int
  }

  predicate AllDigits(s: string) { forall i :: 0 <= i < |s| ==> IsDigit(s[i]) }

  /** What `%u` prints. */
  function Unsigned(n: nat): (s: string)
    ensures s != [] && AllDigits(s)
    ensures n > 0 ==> s[0] != '0'
    ensures n == 0 ==> s == "0"
  {
    if n < 10 then [Digit(n)] else Unsigned(n / 10) + [Digit(n % 10)]
  }

  /** What `%d` prints. */
  function Signed(n: int): string {
    if n < 0 then "-" + Unsigned(-n) else Unsigned(n)
  }

  /** The number a string of digits stands for. */
  function Value(s: string): nat
    requires AllDigits(s)
  {
    if s == [] then 0 else 10 * Value(s[..|s| - 1]) + DigitValue(s[|s| - 1])
  }

  lemma {:induction false} ValueOfUnsigned(n: nat)
    ensures Value(Unsigned(n)) == n
  {
    if n >= 10 {
      ValueOfUnsigned(n / 10);
      assert Unsigned(n)[..|Unsigned(n)| - 1] == Unsigned(n / 10);
    } else {
      assert Unsigned(n)[..0] == [];
      assert Value([]) == 0;
    }
  }

  function Power10(k: nat): nat { if k == 0 then 1 else 10 * Power10(k - 1) }

  lemma {:induction false} UnsignedLength(n: nat, k: nat)
    requires k > 0 && n < Power10(k)
    ensures |Unsigned(n)| <= k
  {
    if k > 1 && n >= 10 {
      UnsignedLength(n / 10, k - 1);
    }
  }

  /** A number of 32 bits takes at most ten digits, and a sign. */
  lemma Width32(n: int)
    requires -0x8000_0000 <= n < 0x1_0000_0000
    ensures |Signed(n)| <= if n < 0 then 11 else 10
  {
    assert Power10(10) == 10_000_000_000 by {
      assert Power10(5) == 100_000;
      assert Power10(7) == 10_000_000;
      assert Power10(9) == 1_000_000_000;
    }
    UnsignedLength(if n < 0 then -n else n, 10);
  }
}
