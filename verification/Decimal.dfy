/** Decimal numerals: what `JSON.stringify` prints for a safe integer. */
module Decimal {
  import opened Utf16

  const ZERO: CodeUnit := 0x30
  const MINUS: CodeUnit := 0x2D
  const MAX_SAFE_INTEGER := 0x1F_FFFF_FFFF_FFFF

  predicate IsDigit(c: CodeUnit) {
    0x30 <= c <= 0x39
  }

  predicate AllDigits(s: Text) {
    forall i :: 0 <= i < |s| ==> IsDigit(s[i])
  }

  /** `0`, or digits that do not start with `0`. */
  predicate IsNatural(s: Text) {
    s != [] && AllDigits(s) && (s[0] == ZERO ==> |s| == 1)
  }

  predicate SafeInteger(n: int) {
    -MAX_SAFE_INTEGER <= n <= MAX_SAFE_INTEGER
  }

  function Digits(n: nat): (s: Text)
    ensures IsNatural(s)
    ensures s[0] == ZERO ==> n == 0
  {
    if n < 10 then [ZERO + n] else Digits(n / 10) + [ZERO + n % 10]
  }

  function ValueOf(s: Text): (n: nat)
    requires AllDigits(s)
  {
    if s == [] then 0 else ValueOf(s[..|s| - 1]) * 10 + (s[|s| - 1] - ZERO)
  }

  function PrintInteger(n: int): Text {
    if n < 0 then [MINUS] + Digits(-n) else Digits(n)
  }

  lemma {:induction false} ValueOfDigits(n: nat)
    ensures ValueOf(Digits(n)) == n
  {
    if 10 <= n {
      ValueOfDigits(n / 10);
      assert Digits(n)[..|Digits(n)| - 1] == Digits(n / 10);
    }
  }

  /** Every canonical numeral is the print of its own value. */
  lemma {:induction false} DigitsOfValue(s: Text)
    requires IsNatural(s)
    ensures Digits(ValueOf(s)) == s
  {
    if |s| == 1 {
      assert ValueOf(s[..0]) == 0;
      assert s == [s[0]];
    } else {
      var front := s[..|s| - 1];
      DigitsOfValue(front);
      PositiveValue(front);
      assert s == front + [s[|s| - 1]];
    }
  }

  lemma {:induction false} PositiveValue(s: Text)
    requires AllDigits(s) && s != [] && s[0] != ZERO
    ensures 0 < ValueOf(s)
  {
    if |s| > 1 {
      PositiveValue(s[..|s| - 1]);
    }
  }
}
