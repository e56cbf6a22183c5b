/** Number lexemes of RFC 8259 section 6, as trees. */
module Numerals {
  import opened Results
  import opened Utf16
  import opened Decimal

  const POINT: CodeUnit := 0x2E
  const PLUS: CodeUnit := 0x2B

  datatype Exponent = Exponent(letter: CodeUnit, sign: Option<CodeUnit>, digits: Text) {
    predicate WellFormed() {
      && letter in {0x65, 0x45}
      && (sign.Some? ==> sign.value in {PLUS, MINUS})
      && digits != [] && AllDigits(digits)
    }

    function Lexeme(): Text {
      [letter] + (if sign.Some? then [sign.value] else []) + digits
    }
  }

  datatype Numeral = Numeral(negative: bool, whole: Text, fraction: Option<Text>, exponent: Option<Exponent>) {
    predicate WellFormed() {
      && IsNatural(whole)
      && (fraction.Some? ==> fraction.value != [] && AllDigits(fraction.value))
      && (exponent.Some? ==> exponent.value.WellFormed())
    }

    /** Written with a fraction or an exponent. */
    predicate IsReal() {
      fraction.Some? || exponent.Some?
    }

    function WholeLexeme(): Text {
      (if negative then [MINUS] else []) + whole
    }

    function FractionLexeme(): Text {
      if fraction.Some? then [POINT] + fraction.value else []
    }

    function ExponentLexeme(): Text {
      if exponent.Some? then exponent.value.Lexeme() else []
    }

    function Lexeme(): Text {
      WholeLexeme() + FractionLexeme() + ExponentLexeme()
    }
  }

  /** The numeral `JSON.stringify` prints for an integer. */
  function OfInteger(n: int): (m: Numeral)
    ensures m.WellFormed() && !m.IsReal()
    ensures m.Lexeme() == PrintInteger(n)
  {
    Numeral(n < 0, Digits(if n < 0 then -n else n), None, None)
  }

  /** The integer an integer numeral stands for. */
  function IntegerOf(m: Numeral): int
    requires m.WellFormed()
  {
    var magnitude: int := ValueOf(m.whole);
    if m.negative then -magnitude else magnitude
  }

  lemma IntegerOfOfInteger(n: int)
    ensures IntegerOf(OfInteger(n)) == n
  {
    ValueOfDigits(if n < 0 then -n else n);
  }

  /** Only `-0` is an integer numeral that is not the print of its own value. */
  lemma OfIntegerIntegerOf(m: Numeral)
    requires m.WellFormed() && !m.IsReal()
    ensures OfInteger(IntegerOf(m)) == m <==> !(m.negative && m.whole == [ZERO])
  {
    DigitsOfValue(m.whole);
    if m.whole[0] != ZERO {
      PositiveValue(m.whole);
    } else {
      assert m.whole == [ZERO];
      assert ValueOf([ZERO]) == 0 by {
        assert [ZERO][..0] == [];
      }
    }
  }
}
