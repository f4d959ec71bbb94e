/** Decimal numerals of natural numbers. */
module Decimals {

  predicate IsDigit(c: char) {
    '0' <= c <= '9'
  }

  predicate AllDigits(s: string) {
    forall i :: 0 <= i < |s| ==> IsDigit(s[i])
  }

  function DigitChar(d: nat): char
    requires d < 10
  {
    (48 + d) as char
  }

  /** The numeral without leading zeroes. */
  function Numeral(n: nat): (s: string)
    ensures s != "" && AllDigits(s)
  {
    if n < 10 then [DigitChar(n)] else Numeral(n / 10) + [DigitChar(n % 10)]
  }

  /** The number a string of digits denotes. */
  function Value(s: string): nat
    requires AllDigits(s)
  {
    if s == "" then 0 else Value(s[..|s| - 1]) * 10 + (s[|s| - 1] as int - 48)
  }

  lemma {:induction false} ValueOfNumeral(n: nat)
    ensures Value(Numeral(n)) == n
  {
    if n >= 10 {
      ValueOfNumeral(n / 10);
      assert Numeral(n)[..|Numeral(n)| - 1] == Numeral(n / 10);
    } else {
      assert Numeral(n)[..0] == "";
      assert Value("") == 0;
    }
  }

  /** Different numbers have different numerals. */
  lemma NumeralIsInjective(n: nat, m: nat)
    requires Numeral(n) == Numeral(m)
    ensures n == m
  {
    ValueOfNumeral(n);
    ValueOfNumeral(m);
  }

  function Zeros(z: nat): (s: string)
    ensures |s| == z
  {
    seq(z, _ => '0')
  }

  /** The texts that denote a number are its numeral behind any number of zeroes. */
  lemma {:induction false} DenotesIff(s: string, n: nat)
    ensures s != "" && AllDigits(s) && Value(s) == n <==> exists z: nat :: s == Zeros(z) + Numeral(n)
  {
    if s != "" && AllDigits(s) && Value(s) == n {
      var z := LeadingZeros(s);
      assert s == Zeros(z) + Numeral(n);
    }
    if z: nat :| s == Zeros(z) + Numeral(n) {
      ZerosAddNothing(z, Numeral(n));
      ValueOfNumeral(n);
    }
  }

  lemma {:induction false} LeadingZeros(s: string) returns (z: nat)
    requires s != "" && AllDigits(s)
    ensures s == Zeros(z) + Numeral(Value(s))
  {
    var front, d := s[..|s| - 1], s[|s| - 1] as int - 48;
    assert s == front + [DigitChar(d)];
    z := 0;
    if front == "" {
      assert Value("") == 0;
    } else {
      z := LeadingZeros(front);
      if Value(front) == 0 {
        assert front == Zeros(z + 1);
        z := z + 1;
      }
    }
  }

  lemma {:induction false} ZerosAddNothing(z: nat, s: string)
    requires AllDigits(s)
    ensures AllDigits(Zeros(z) + s) && Value(Zeros(z) + s) == Value(s)
    decreases |s|
  {
    if s != "" {
      assert (Zeros(z) + s)[..|Zeros(z) + s| - 1] == Zeros(z) + s[..|s| - 1];
      ZerosAddNothing(z, s[..|s| - 1]);
    } else {
      assert Zeros(z) + s == Zeros(z);
      ZerosAreNothing(z);
    }
  }

  lemma {:induction false} ZerosAreNothing(z: nat)
    ensures AllDigits(Zeros(z)) && Value(Zeros(z)) == 0
  {
    if z > 0 {
      assert Zeros(z)[..z - 1] == Zeros(z - 1);
      ZerosAreNothing(z - 1);
    }
  }
}
