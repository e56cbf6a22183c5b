/**
  The language of the strict scanner: it accepts a text exactly when some admissible
  syntax tree spells it, and on every other RFC 8259 text it reports the first rule
  the text breaks.
 */
module JsonLanguage {
  import opened Results
  import opened Utf16
  import opened Decimal
  import opened Numerals
  import opened JsonValue
  import opened Canonicalizer
  import opened JsonGrammar
  import opened JsonScan

  // ----- the first rule a tree breaks, in document order -----

  function Violation(t: Tree, depth: nat, nodes: nat, prints: Numeral -> bool): Option<ScanError>
    requires Formed(t)
  {
    if depth > MAX_DEPTH then Some(TooDeep)
    else if nodes + 1 > MAX_NODES then Some(TooComplex)
    else
      match t
      case TNull => None
      case TBool(_) => None
      case TNum(m) => if NumeralCanonical(m, prints) then None else Some(NumberInvalid)
      case TStr(chars) => if WellPaired(Denotes(chars)) then None else Some(StringInvalid)
      case TArr(_, elems) => ElemsViolation(elems, depth + 1, nodes + 1, prints)
      case TObj(_, fields) => FieldsViolation(fields, depth + 1, nodes + 1, {}, prints)
  }

  function ElemsViolation(es: Elems, depth: nat, nodes: nat, prints: Numeral -> bool): Option<ScanError>
    requires ElemsFormed(es)
  {
    match es
    case NoElems => None
    case Elem(v, _, _, rest) =>
      var first := Violation(v, depth, nodes, prints);
      if first.Some? then first else ElemsViolation(rest, depth, nodes + Nodes(v), prints)
  }

  function FieldsViolation(fs: Fields, depth: nat, nodes: nat, keys: set<Text>, prints: Numeral -> bool):
    Option<ScanError>
    requires FieldsFormed(fs)
  {
    match fs
    case NoFields => None
    case Field(chars, _, _, v, _, _, rest) =>
      var key := Denotes(chars);
      if !WellPaired(key) then Some(StringInvalid)
      else if key in keys then Some(DuplicateKey)
      else if Reserved(key) then Some(UnsafeKey)
      else
        var first := Violation(v, depth, nodes, prints);
        if first.Some? then first else FieldsViolation(rest, depth, nodes + Nodes(v), keys + {key}, prints)
  }

  lemma NodesPositive(t: Tree)
    ensures 1 <= Nodes(t) && 1 <= Depth(t)
  {
  }

  /** A tree breaks no rule exactly when it is clean and within both budgets. */
  lemma {:induction false} NoViolation(t: Tree, depth: nat, nodes: nat, prints: Numeral -> bool)
    requires Formed(t)
    ensures Violation(t, depth, nodes, prints) == None <==>
            Clean(t, prints) && depth + Depth(t) <= MAX_DEPTH + 1 && nodes + Nodes(t) <= MAX_NODES
  {
    NodesPositive(t);
    if depth <= MAX_DEPTH && nodes + 1 <= MAX_NODES {
      match t {
        case TArr(_, elems) => NoElemsViolation(elems, depth + 1, nodes + 1, prints);
        case TObj(_, fields) => NoFieldsViolation(fields, depth + 1, nodes + 1, {}, prints);
        case _ =>
      }
    }
  }

  lemma {:induction false} NoElemsViolation(es: Elems, depth: nat, nodes: nat, prints: Numeral -> bool)
    requires ElemsFormed(es) && depth <= MAX_DEPTH + 1 && nodes <= MAX_NODES
    ensures ElemsViolation(es, depth, nodes, prints) == None <==>
            ElemsClean(es, prints) && depth + ElemsDepth(es) <= MAX_DEPTH + 1 && nodes + ElemsNodes(es) <= MAX_NODES
  {
    if es.Elem? {
      NoViolation(es.value, depth, nodes, prints);
      if nodes + Nodes(es.value) <= MAX_NODES {
        NoElemsViolation(es.rest, depth, nodes + Nodes(es.value), prints);
      }
    }
  }

  lemma {:induction false} NoFieldsViolation(fs: Fields, depth: nat, nodes: nat, keys: set<Text>,
                                             prints: Numeral -> bool)
    requires FieldsFormed(fs) && depth <= MAX_DEPTH + 1 && nodes <= MAX_NODES
    ensures FieldsViolation(fs, depth, nodes, keys, prints) == None <==>
            && FieldsClean(fs, prints) && DistinctKeys(FieldsMeaning(fs))
            && (forall m | m in FieldsMeaning(fs) :: m.key !in keys)
            && depth + FieldsDepth(fs) <= MAX_DEPTH + 1 && nodes + FieldsNodes(fs) <= MAX_NODES
  {
    hide WellPaired, Reserved, Denotes, Violation, Clean, Nodes, Depth, Meaning, Formed, CharsFormed;
    if fs.Field? {
      var key, ms, rest := Denotes(fs.key), FieldsMeaning(fs), FieldsMeaning(fs.rest);
      NoViolation(fs.value, depth, nodes, prints);
      assert ms[0] in ms && ms[1..] == rest;
      assert forall m :: m in ms <==> m == ms[0] || m in rest;
      DistinctCons(ms);
      if nodes + Nodes(fs.value) <= MAX_NODES {
        NoFieldsViolation(fs.rest, depth, nodes + Nodes(fs.value), keys + {key}, prints);
      }
    }
  }

  lemma DistinctCons(ms: seq<Member>)
    requires ms != []
    ensures DistinctKeys(ms) <==> DistinctKeys(ms[1..]) && forall m | m in ms[1..] :: m.key != ms[0].key
  {
    if DistinctKeys(ms[1..]) && forall m | m in ms[1..] :: m.key != ms[0].key {
      forall i, j | 0 <= i < j < |ms|
        ensures ms[i].key != ms[j].key
      {
        assert ms[j] == ms[1..][j - 1];
        if 0 < i {
          assert ms[i] == ms[1..][i - 1];
        }
      }
    }
    if DistinctKeys(ms) {
      forall i, j | 0 <= i < j < |ms[1..]|
        ensures ms[1..][i].key != ms[1..][j].key
      {
      }
    }
  }

  // ----- reading a spelling back -----

  /** `s` stands in `src` at `i`. */
  predicate At(src: Text, i: nat, s: Text)
    decreases |s|
  {
    if s == [] then i <= |src| else i < |src| && src[i] == s[0] && At(src, i + 1, s[1..])
  }

  lemma {:induction false} AtSlice(src: Text, i: nat, s: Text)
    ensures At(src, i, s) <==> i + |s| <= |src| && src[i..i + |s|] == s
    decreases |s|
  {
    if s != [] {
      AtSlice(src, i + 1, s[1..]);
      if i + |s| <= |src| {
        assert src[i..i + |s|] == [src[i]] + src[i + 1..i + 1 + |s[1..]|];
        assert s == [s[0]] + s[1..];
      }
    }
  }

  lemma {:induction false} AtSplit(src: Text, i: nat, a: Text, b: Text)
    ensures At(src, i, a + b) <==> At(src, i, a) && At(src, i + |a|, b)
    decreases |a|
  {
    if a == [] {
      assert a + b == b;
      AtBound(src, i, b);
    } else {
      assert (a + b)[1..] == a[1..] + b;
      AtSplit(src, i + 1, a[1..], b);
    }
  }

  lemma {:induction false} AtBound(src: Text, i: nat, s: Text)
    ensures At(src, i, s) ==> i + |s| <= |src|
    decreases |s|
  {
    if s != [] {
      AtBound(src, i + 1, s[1..]);
    }
  }

  lemma AtHead(src: Text, i: nat, s: Text)
    requires s != [] && At(src, i, s)
    ensures Looking(src, i, s[0])
  {
  }

  lemma {:induction false} SkipBlank(src: Text, i: nat, ws: Text)
    requires Blank(ws) && At(src, i, ws)
    requires i + |ws| < |src| ==> !IsSpace(src[i + |ws|])
    ensures Skip(src, i) == i + |ws|
    decreases |ws|
  {
    if ws != [] {
      AtSplit(src, i, [ws[0]], ws[1..]);
      assert ws == [ws[0]] + ws[1..];
      AtHead(src, i, ws);
      SkipBlank(src, i + 1, ws[1..]);
    }
  }

  lemma {:induction false} SkipIsBlank(src: Text, i: nat)
    requires i <= |src|
    ensures Blank(src[i..Skip(src, i)])
    ensures Skip(src, i) < |src| ==> !IsSpace(src[Skip(src, i)])
    decreases |src| - i
  {
    if i < |src| && IsSpace(src[i]) {
      SkipIsBlank(src, i + 1);
      assert src[i..Skip(src, i)] == [src[i]] + src[i + 1..Skip(src, i)];
    }
  }

  // numerals

  /** A numeral ends here: nothing that could extend it follows. */
  predicate Stops(src: Text, i: nat) {
    i < |src| ==> !IsDigit(src[i]) && src[i] != POINT && src[i] !in {0x65, 0x45}
  }

  lemma {:induction false} DigitsEndAt(src: Text, i: nat, s: Text)
    requires AllDigits(s) && At(src, i, s) && !DigitAt(src, i + |s|)
    ensures DigitsEnd(src, i) == i + |s|
    decreases |s|
  {
    if s != [] {
      AtSplit(src, i, [s[0]], s[1..]);
      assert s == [s[0]] + s[1..];
      AtHead(src, i, s);
      DigitsEndAt(src, i + 1, s[1..]);
    }
  }

  lemma ReadLexeme(e: Exponent)
    requires e.WellFormed()
    ensures 2 <= |e.Lexeme()| && ReadExponent(e.Lexeme()) == e
  {
    var s := e.Lexeme();
    if e.sign.Some? {
      assert s[1] == e.sign.value && s[2..] == e.digits;
    } else {
      assert s[1] == e.digits[0] && s[1..] == e.digits;
    }
  }

  lemma ExponentAt(src: Text, i: nat, e: Exponent)
    requires e.WellFormed() && At(src, i, e.Lexeme()) && !DigitAt(src, i + |e.Lexeme()|)
    ensures i <= |src| && ExponentEnd(src, i) == i + |e.Lexeme()|
  {
    var sign := if e.sign.Some? then [e.sign.value] else [];
    var start := i + 1 + |sign|;
    AtSplit(src, i, [e.letter], sign);
    AtSplit(src, i, [e.letter] + sign, e.digits);
    AtOne(src, i, e.letter);
    if e.sign.Some? {
      AtOne(src, i + 1, e.sign.value);
    }
    AtHead(src, start, e.digits);
    DigitsEndAt(src, start, e.digits);
  }

  lemma FractionAt(src: Text, i: nat, digits: Text)
    requires digits != [] && AllDigits(digits) && At(src, i, [POINT] + digits) && !DigitAt(src, i + 1 + |digits|)
    ensures i <= |src| && FractionEnd(src, i) == i + 1 + |digits|
  {
    AtSplit(src, i, [POINT], digits);
    AtOne(src, i, POINT);
    AtHead(src, i + 1, digits);
    DigitsEndAt(src, i + 1, digits);
  }

  lemma WholeAt(src: Text, i: nat, whole: Text)
    requires IsNatural(whole) && At(src, i, whole) && !DigitAt(src, i + |whole|)
    ensures DigitAt(src, i) && WholeEnd(src, i) == i + |whole|
  {
    AtHead(src, i, whole);
    DigitsEndAt(src, i, whole);
  }

  lemma NumeralLayout(src: Text, i: nat, m: Numeral, sign: Text, whole: nat, point: nat)
    requires sign == if m.negative then [MINUS] else []
    requires whole == i + |sign| + |m.whole| && point == whole + |m.FractionLexeme()|
    ensures |m.Lexeme()| == point + |m.ExponentLexeme()| - i
    ensures At(src, i, m.Lexeme()) <==>
            && At(src, i, sign) && At(src, i + |sign|, m.whole)
            && At(src, whole, m.FractionLexeme()) && At(src, point, m.ExponentLexeme())
  {
    AtSplit(src, i, sign, m.whole);
    AtSplit(src, i, sign + m.whole, m.FractionLexeme());
    AtSplit(src, i, sign + m.whole + m.FractionLexeme(), m.ExponentLexeme());
  }

  lemma NumeralHead(m: Numeral)
    requires m.WellFormed()
    ensures m.Lexeme() != [] && m.Lexeme()[0] == if m.negative then MINUS else m.whole[0]
  {
  }

  /** The whole part, the fraction and the exponent end where the numeral says they do. */
  lemma NumeralEnds(src: Text, start: nat, m: Numeral, whole: nat, point: nat, end: nat)
    requires m.WellFormed() && At(src, start, m.whole)
    requires At(src, whole, m.FractionLexeme()) && At(src, point, m.ExponentLexeme()) && Stops(src, end)
    requires whole == start + |m.whole| && point == whole + |m.FractionLexeme()| && end == point + |m.ExponentLexeme()|
    ensures DigitAt(src, start) && WholeEnd(src, start) == whole
    ensures whole <= |src| && FractionEnd(src, whole) == point <= |src| && ExponentEnd(src, point) == end <= |src|
  {
    AtBound(src, point, m.ExponentLexeme());
    AtBound(src, whole, m.FractionLexeme());
    if m.exponent.Some? {
      AtHead(src, point, m.ExponentLexeme());
      ExponentAt(src, point, m.exponent.value);
    }
    if m.fraction.Some? {
      AtHead(src, whole, m.FractionLexeme());
      FractionAt(src, whole, m.fraction.value);
    }
    WholeAt(src, start, m.whole);
  }

  lemma NumeralSlices(src: Text, start: nat, m: Numeral, whole: nat, point: nat, end: nat)
    requires m.WellFormed() && At(src, start, m.whole)
    requires At(src, whole, m.FractionLexeme()) && At(src, point, m.ExponentLexeme())
    requires whole == start + |m.whole| && point == whole + |m.FractionLexeme()| && end == point + |m.ExponentLexeme()|
    ensures start < whole <= point <= end <= |src| && src[start..whole] == m.whole
    ensures m.fraction == if whole < point then Some(src[whole + 1..point]) else None
    ensures m.exponent == if point + 2 <= end then Some(ReadExponent(src[point..end])) else None
    ensures point < end ==> point + 2 <= end
  {
    AtSlice(src, start, m.whole);
    AtSlice(src, whole, m.FractionLexeme());
    AtSlice(src, point, m.ExponentLexeme());
    if m.fraction.Some? {
      assert src[whole + 1..point] == src[whole..point][1..] == m.fraction.value;
    }
    if m.exponent.Some? {
      ReadLexeme(m.exponent.value);
    }
  }

  lemma NumeralAssembled(src: Text, i: nat, m: Numeral, start: nat, whole: nat, point: nat, end: nat)
    requires i < |src| && (src[i] == MINUS <==> m.negative) && start == if m.negative then i + 1 else i
    requires DigitAt(src, start) && WholeEnd(src, start) == whole
    requires FractionEnd(src, whole) == point && ExponentEnd(src, point) == end
    requires start < whole <= point <= end <= |src| && src[start..whole] == m.whole
    requires m.fraction == if whole < point then Some(src[whole + 1..point]) else None
    requires point < end ==> point + 2 <= end
    requires m.exponent == if point + 2 <= end then Some(ReadExponent(src[point..end])) else None
    ensures ScanNumeral(src, i) == Matched(m, end)
  {
    hide WholeEnd, FractionEnd, ExponentEnd, ReadExponent, IsNatural, IsDigit;
  }

  /** The longest match of the number expression at a numeral is that numeral. */
  lemma NumeralAt(src: Text, i: nat, m: Numeral)
    requires m.WellFormed() && At(src, i, m.Lexeme()) && Stops(src, i + |m.Lexeme()|)
    ensures i < |src| && ScanNumeral(src, i) == Matched(m, i + |m.Lexeme()|)
  {
    hide At, ScanNumeral, WholeEnd, FractionEnd, ExponentEnd, ReadExponent, Stops;
    var sign := if m.negative then [MINUS] else [];
    var start := i + |sign|;
    var whole := start + |m.whole|;
    var point := whole + |m.FractionLexeme()|;
    var end := point + |m.ExponentLexeme()|;
    NumeralLayout(src, i, m, sign, whole, point);
    NumeralHead(m);
    AtHead(src, i, m.Lexeme());
    NumeralEnds(src, start, m, whole, point, end);
    NumeralSlices(src, start, m, whole, point, end);
    NumeralAssembled(src, i, m, start, whole, point, end);
  }

  /** Whatever the number expression matches is spelled there. */
  lemma NumeralFound(src: Text, i: nat)
    requires i <= |src| && ScanNumeral(src, i).Matched?
    ensures var r := ScanNumeral(src, i);
            At(src, i, r.m.Lexeme()) && r.next == i + |r.m.Lexeme()|
  {
    hide At, IsNatural, AllDigits, IsDigit, DigitsEnd, WholeEnd, FractionEnd, ExponentEnd;
    var r := ScanNumeral(src, i);
    var m := r.m;
    var sign := if m.negative then [MINUS] else [];
    var start := i + |sign|;
    var whole := WholeEnd(src, start);
    var point := FractionEnd(src, whole);
    AtOne(src, i, MINUS);
    AtNothing(src, i);
    SliceAt(src, start, whole);
    FractionSpelled(src, whole);
    SliceAt(src, point, r.next);
    NumeralLayout(src, i, m, sign, whole, point);
  }

  lemma AtNothing(src: Text, i: nat)
    requires i <= |src|
    ensures At(src, i, [])
  {
  }

  lemma SliceAt(src: Text, i: nat, j: nat)
    requires i <= j <= |src|
    ensures At(src, i, src[i..j])
  {
    AtSlice(src, i, src[i..j]);
  }

  lemma FractionSpelled(src: Text, i: nat)
    requires i <= |src|
    ensures var j := FractionEnd(src, i);
            At(src, i, if i < j then [POINT] + src[i + 1..j] else [])
  {
    var j := FractionEnd(src, i);
    AtNothing(src, i);
    if i < j {
      assert src[i..j] == [POINT] + src[i + 1..j];
      SliceAt(src, i, j);
    }
  }

  // strings

  lemma CharAt(src: Text, i: nat, ch: Char)
    requires CharFormed(ch) && At(src, i, CharSpelling(ch))
    ensures i < |src| && src[i] != QUOTE && ScanChar(src, i) == Some(ch)
  {
    AtSlice(src, i, CharSpelling(ch));
    match ch {
      case Plainly(c) =>
      case Short(letter) =>
        AtHead(src, i + 1, [letter]);
      case Hex(h) =>
        assert src[i + 2..i + 6] == src[i..i + 6][2..] == h;
        assert forall k :: i + 2 <= k < i + 6 ==> src[k] == h[k - (i + 2)];
    }
  }

  lemma CharFound(src: Text, i: nat)
    requires i < |src| && ScanChar(src, i).Some?
    ensures At(src, i, CharSpelling(ScanChar(src, i).value))
  {
    AtSlice(src, i, CharSpelling(ScanChar(src, i).value));
  }

  lemma {:induction false} CharsAt(src: Text, i: nat, chars: seq<Char>, nodes: nat)
    requires CharsFormed(chars) && At(src, i, CharsSpelling(chars)) && Looking(src, i + |CharsSpelling(chars)|, QUOTE)
    ensures ScanChars(src, i, nodes) == Found(chars, i + |CharsSpelling(chars)| + 1, nodes)
    decreases |chars|
  {
    hide At, CharSpelling, CharFormed, ScanChar;
    AtBound(src, i, CharsSpelling(chars));
    if chars != [] {
      var head, tail := CharSpelling(chars[0]), CharsSpelling(chars[1..]);
      AtSplit(src, i, head, tail);
      CharAt(src, i, chars[0]);
      CharsAt(src, i + |head|, chars[1..], nodes);
      assert chars == [chars[0]] + chars[1..];
    }
  }

  lemma {:induction false} CharsFound(src: Text, i: nat, nodes: nat)
    requires i <= |src| && ScanChars(src, i, nodes).Found?
    ensures var r := ScanChars(src, i, nodes);
            && At(src, i, CharsSpelling(r.piece)) && r.next == i + |CharsSpelling(r.piece)| + 1
            && Looking(src, i + |CharsSpelling(r.piece)|, QUOTE)
    decreases |src| - i
  {
    if src[i] != QUOTE {
      var ch := ScanChar(src, i).value;
      var head := CharSpelling(ch);
      CharFound(src, i);
      CharsFound(src, i + |head|, nodes);
      var rest := ScanChars(src, i + |head|, nodes).piece;
      assert ([ch] + rest)[1..] == rest;
      AtSplit(src, i, head, CharsSpelling(rest));
    }
  }

  lemma StringLayout(src: Text, i: nat, chars: seq<Char>)
    ensures At(src, i, StringSpelling(chars)) <==>
            && Looking(src, i, QUOTE) && At(src, i + 1, CharsSpelling(chars))
            && Looking(src, i + 1 + |CharsSpelling(chars)|, QUOTE)
  {
    AtSplit(src, i, [QUOTE], CharsSpelling(chars));
    AtSplit(src, i, [QUOTE] + CharsSpelling(chars), [QUOTE]);
  }

  lemma StringAt(src: Text, i: nat, chars: seq<Char>, nodes: nat)
    requires CharsFormed(chars) && At(src, i, StringSpelling(chars))
    ensures ScanString(src, i, nodes) == if WellPaired(Denotes(chars))
                                         then Found(chars, i + |StringSpelling(chars)|, nodes)
                                         else Stop(StringInvalid)
  {
    StringLayout(src, i, chars);
    CharsAt(src, i + 1, chars, nodes);
  }

  lemma StringSize(chars: seq<Char>)
    ensures |StringSpelling(chars)| == |CharsSpelling(chars)| + 2
  {
  }

  lemma StringFound(src: Text, i: nat, nodes: nat)
    requires i <= |src| && ScanString(src, i, nodes).Found?
    ensures var r := ScanString(src, i, nodes);
            At(src, i, StringSpelling(r.piece)) && r.next == i + |StringSpelling(r.piece)|
              && WellPaired(Denotes(r.piece))
  {
    hide At, CharsSpelling, WellPaired, Denotes, CharsFormed, StringSpelling;
    StringSize(ScanString(src, i, nodes).piece);
    CharsFound(src, i + 1, nodes);
    StringLayout(src, i, ScanString(src, i, nodes).piece);
  }

  // values

  /** No spelling starts with white space or with punctuation that closes or separates. */
  lemma SpellingHead(t: Tree)
    requires Formed(t)
    ensures Spelling(t) != []
    ensures var c := Spelling(t)[0];
            !IsSpace(c) && c !in {RBRACKET, RBRACE, COMMA, COLON}
  {
    match t {
      case TNum(m) => NumeralHead(m);
      case _ =>
    }
  }

  /** Where a value, the separator after it and the rest stand; the texts are arbitrary. */
  lemma TailLayout(src: Text, i: nat, value: Text, after: Text, last: bool, close: CodeUnit, lead: Text, rest: Text)
    ensures var separator := if last then [close] else [COMMA] + (lead + rest);
            var b := i + |value| + |after|;
            && |value + (after + separator)| == b + 1 - i + (if last then 0 else |lead| + |rest|)
            && (At(src, i, value + (after + separator)) <==>
                  && At(src, i, value) && At(src, i + |value|, after)
                  && if last then Looking(src, b, close)
                     else Looking(src, b, COMMA) && At(src, b + 1, lead) && At(src, b + 1 + |lead|, rest))
  {
    var separator := if last then [close] else [COMMA] + (lead + rest);
    var b := i + |value| + |after|;
    AtSplit(src, i, value, after + separator);
    AtSplit(src, i + |value|, after, separator);
    if last {
      AtOne(src, b, close);
    } else {
      OpenLayout(src, b, COMMA, lead, rest);
    }
  }

  lemma AtOne(src: Text, i: nat, c: CodeUnit)
    ensures At(src, i, [c]) <==> Looking(src, i, c)
  {
    assert [c][1..] == [];
  }

  lemma OpenLayout(src: Text, i: nat, bracket: CodeUnit, open: Text, body: Text)
    ensures At(src, i, [bracket] + (open + body)) <==>
            Looking(src, i, bracket) && At(src, i + 1, open) && At(src, i + 1 + |open|, body)
  {
    AtSplit(src, i, [bracket], open + body);
    AtSplit(src, i + 1, open, body);
    AtOne(src, i, bracket);
  }

  /** White space stands at `i` and something else after it. */
  lemma BlankAt(src: Text, i: nat, ws: Text)
    requires Blank(ws) && At(src, i, ws) && (i + |ws| < |src| ==> !IsSpace(src[i + |ws|]))
    ensures Skip(src, i) == i + |ws| <= |src| && src[i..i + |ws|] == ws
  {
    SkipBlank(src, i, ws);
    AtSlice(src, i, ws);
  }

  lemma ElemsHead(src: Text, i: nat, es: Elems)
    requires ElemsFormed(es) && At(src, i, ElemsSpelling(es))
    ensures i < |src| && !IsSpace(src[i]) && (src[i] == RBRACKET <==> es.NoElems?)
  {
    if es.Elem? {
      SpellingHead(es.value);
      AtHead(src, i, ElemsSpelling(es));
    }
  }

  lemma FieldsHead(src: Text, i: nat, fs: Fields)
    requires FieldsFormed(fs) && At(src, i, FieldsSpelling(fs))
    ensures i < |src| && !IsSpace(src[i]) && (src[i] == RBRACE <==> fs.NoFields?)
  {
    AtHead(src, i, FieldsSpelling(fs));
  }

  /** What a scan must answer on a tree that is spelled where it starts. */
  function Verdict<T>(violation: Option<ScanError>, piece: T, next: nat, nodes: nat): Scan<T> {
    if violation.Some? then Stop(violation.value) else Found(piece, next, nodes)
  }

  /** The text after a value, as the scanner meets it. */
  lemma TailAt(src: Text, a: nat, after: Text, last: bool, close: CodeUnit, lead: Text)
    requires close in {RBRACKET, RBRACE} && Blank(after) && Blank(lead) && At(src, a, after)
    requires var b := a + |after|;
             if last then Looking(src, b, close)
             else
               && Looking(src, b, COMMA) && At(src, b + 1, lead)
               && b + 1 + |lead| < |src| && !IsSpace(src[b + 1 + |lead|])
    ensures var b := a + |after|;
            && Stops(src, a) && a <= |src| && Skip(src, a) == b < |src| && src[a..b] == after
            && (!last ==> Skip(src, b + 1) == b + 1 + |lead| <= |src| && src[b + 1..b + 1 + |lead|] == lead)
  {
    if after != [] {
      AtHead(src, a, after);
    }
    BlankAt(src, a, after);
    if !last {
      BlankAt(src, a + |after| + 1, lead);
    }
  }

  /** An element and what follows it, as the scanner meets them. */
  lemma ElemParts(src: Text, i: nat, es: Elems)
    requires ElemsFormed(es) && es.Elem? && At(src, i, ElemsSpelling(es))
    ensures var a := i + |Spelling(es.value)|;
            var b := a + |es.after|;
            var c := b + 1 + |es.lead|;
            && At(src, i, Spelling(es.value))
            && Stops(src, a) && a <= |src| && Skip(src, a) == b < |src| && src[a..b] == es.after
            && if es.rest.NoElems? then Looking(src, b, RBRACKET) && i + |ElemsSpelling(es)| == b + 1
               else
                 && Looking(src, b, COMMA) && Skip(src, b + 1) == c <= |src| && src[b + 1..c] == es.lead
                 && At(src, c, ElemsSpelling(es.rest)) && i + |ElemsSpelling(es)| == c + |ElemsSpelling(es.rest)|
  {
    hide At, Spelling, Skip, Stops;
    TailLayout(src, i, Spelling(es.value), es.after, es.rest.NoElems?, RBRACKET, es.lead, ElemsSpelling(es.rest));
    var a := i + |Spelling(es.value)|;
    if es.rest.Elem? {
      ElemsHead(src, a + |es.after| + 1 + |es.lead|, es.rest);
    }
    TailAt(src, a, es.after, es.rest.NoElems?, RBRACKET, es.lead);
  }

  /** A key and its colon, as the scanner meets them. */
  lemma KeyAt(src: Text, i: nat, fs: Fields, tail: Text, nodes: nat, keys: set<Text>)
    requires FieldsFormed(fs) && fs.Field? && tail != [] && !IsSpace(tail[0])
    requires At(src, i, StringSpelling(fs.key) + (fs.beforeColon + ([COLON] + (fs.afterColon + tail))))
    ensures var start := i + |StringSpelling(fs.key)| + |fs.beforeColon| + 1 + |fs.afterColon|;
            var key := Denotes(fs.key);
            && At(src, start, tail)
            && ScanKey(src, i, nodes, keys) ==
               if !WellPaired(key) then Stop(StringInvalid)
               else if key in keys then Stop(DuplicateKey)
               else if Reserved(key) then Stop(UnsafeKey)
               else Found(Key(fs.key, fs.beforeColon, fs.afterColon), start, nodes)
  {
    hide At, StringSpelling, Skip, ScanString, WellPaired, Denotes, Reserved;
    var k := i + |StringSpelling(fs.key)|;
    var colon := k + |fs.beforeColon|;
    AtSplit(src, i, StringSpelling(fs.key), fs.beforeColon + ([COLON] + (fs.afterColon + tail)));
    AtSplit(src, k, fs.beforeColon, [COLON] + (fs.afterColon + tail));
    OpenLayout(src, colon, COLON, fs.afterColon, tail);
    AtHead(src, colon + 1 + |fs.afterColon|, tail);
    StringAt(src, i, fs.key, nodes);
    BlankAt(src, k, fs.beforeColon);
    BlankAt(src, colon + 1, fs.afterColon);
  }

  lemma {:induction false} ValueAt(src: Text, i: nat, t: Tree, depth: nat, nodes: nat, prints: Numeral -> bool)
    requires Formed(t) && At(src, i, Spelling(t))
    requires t.TNum? ==> Stops(src, i + |Spelling(t)|)
    ensures i <= |src| && ScanValue(src, i, depth, nodes, prints) ==
            Verdict(Violation(t, depth, nodes, prints), t, i + |Spelling(t)|, nodes + Nodes(t))
    decreases t, 2
  {
    AtBound(src, i, Spelling(t));
    if depth <= MAX_DEPTH && nodes + 1 <= MAX_NODES {
      match t {
        case TArr(_, _) => ArrayAt(src, i, t, depth, nodes, prints);
        case TObj(_, _) => ObjectAt(src, i, t, depth, nodes, prints);
        case _ => ScalarAt(src, i, t, nodes, prints);
      }
    }
  }

  lemma ScalarAt(src: Text, i: nat, t: Tree, nodes: nat, prints: Numeral -> bool)
    requires Formed(t) && At(src, i, Spelling(t)) && !t.TArr? && !t.TObj? && nodes + 1 <= MAX_NODES
    requires t.TNum? ==> Stops(src, i + |Spelling(t)|)
    ensures i < |src| && src[i] !in {LBRACE, LBRACKET}
    ensures ScanScalar(src, i, nodes + 1, prints) ==
            Verdict(Violation(t, 1, nodes, prints), t, i + |Spelling(t)|, nodes + 1)
  {
    hide At, Stops, ScanString, ScanNumeral, NumeralCanonical, WellPaired, Denotes, CharsSpelling;
    match t {
      case TNull =>
        AtHead(src, i, NULL);
        AtSlice(src, i, NULL);
      case TBool(b) =>
        AtHead(src, i, if b then TRUE else FALSE);
        AtSlice(src, i, if b then TRUE else FALSE);
      case TNum(m) =>
        NumeralHead(m);
        AtHead(src, i, m.Lexeme());
        NumeralAt(src, i, m);
      case TStr(chars) =>
        StringLayout(src, i, chars);
        StringAt(src, i, chars, nodes + 1);
    }
  }

  lemma EmptyTails(depth: nat, nodes: nat, keys: set<Text>, prints: Numeral -> bool)
    ensures ElemsViolation(NoElems, depth, nodes, prints) == None && ElemsNodes(NoElems) == 0
    ensures FieldsViolation(NoFields, depth, nodes, keys, prints) == None && FieldsNodes(NoFields) == 0
    ensures ElemsSpelling(NoElems) == [RBRACKET] && FieldsSpelling(NoFields) == [RBRACE]
  {
  }

  lemma ArrayAt(src: Text, i: nat, t: Tree, depth: nat, nodes: nat, prints: Numeral -> bool)
    requires Formed(t) && At(src, i, Spelling(t)) && t.TArr? && depth <= MAX_DEPTH && nodes + 1 <= MAX_NODES
    ensures i < |src| && ScanValue(src, i, depth, nodes, prints) ==
            Verdict(Violation(t, depth, nodes, prints), t, i + |Spelling(t)|, nodes + Nodes(t))
    decreases t, 1
  {
    hide At, ElemsSpelling, ScanElems, ElemsViolation, ElemsNodes, Blank, ScanScalar;
    EmptyTails(depth + 1, nodes + 1, {}, prints);
    OpenLayout(src, i, LBRACKET, t.open, ElemsSpelling(t.elems));
    ElemsHead(src, i + 1 + |t.open|, t.elems);
    BlankAt(src, i + 1, t.open);
    if t.elems.Elem? {
      ElemsAt(src, i + 1 + |t.open|, t.elems, depth + 1, nodes + 1, prints);
    }
  }

  lemma ObjectAt(src: Text, i: nat, t: Tree, depth: nat, nodes: nat, prints: Numeral -> bool)
    requires Formed(t) && At(src, i, Spelling(t)) && t.TObj? && depth <= MAX_DEPTH && nodes + 1 <= MAX_NODES
    ensures i < |src| && ScanValue(src, i, depth, nodes, prints) ==
            Verdict(Violation(t, depth, nodes, prints), t, i + |Spelling(t)|, nodes + Nodes(t))
    decreases t, 1
  {
    hide At, FieldsSpelling, ScanFields, FieldsViolation, FieldsNodes, Blank, ScanScalar;
    EmptyTails(depth + 1, nodes + 1, {}, prints);
    OpenLayout(src, i, LBRACE, t.open, FieldsSpelling(t.fields));
    FieldsHead(src, i + 1 + |t.open|, t.fields);
    BlankAt(src, i + 1, t.open);
    if t.fields.Field? {
      FieldsAt(src, i + 1 + |t.open|, t.fields, depth + 1, nodes + 1, {}, prints);
    }
  }

  lemma {:induction false} ElemsAt(src: Text, i: nat, es: Elems, depth: nat, nodes: nat, prints: Numeral -> bool)
    requires ElemsFormed(es) && es.Elem? && At(src, i, ElemsSpelling(es))
    ensures i <= |src| && ScanElems(src, i, depth, nodes, prints) ==
            Verdict(ElemsViolation(es, depth, nodes, prints), es, i + |ElemsSpelling(es)|, nodes + ElemsNodes(es))
    decreases es, 0
  {
    hide At, Spelling, ElemsSpelling, Skip, ScanElems, ScanValue, Violation, Nodes, Formed;
    AtBound(src, i, ElemsSpelling(es));
    UnfoldElems(src, i, depth, nodes, prints);
    ElemParts(src, i, es);
    ValueAt(src, i, es.value, depth, nodes, prints);
    if es.rest.Elem? {
      var c := i + |Spelling(es.value)| + |es.after| + 1 + |es.lead|;
      ElemsAt(src, c, es.rest, depth, nodes + Nodes(es.value), prints);
    }
  }

  lemma {:induction false} FieldsAt(src: Text, i: nat, fs: Fields, depth: nat, nodes: nat, keys: set<Text>,
                                    prints: Numeral -> bool)
    requires FieldsFormed(fs) && fs.Field? && At(src, i, FieldsSpelling(fs))
    ensures i <= |src| && ScanFields(src, i, depth, nodes, keys, prints) ==
            Verdict(FieldsViolation(fs, depth, nodes, keys, prints), fs, i + |FieldsSpelling(fs)|,
                    nodes + FieldsNodes(fs))
    decreases fs, 0
  {
    hide At, Spelling, FieldsSpelling, StringSpelling, FieldStart, Skip, ScanFields, ScanValue, ScanKey, Violation,
      Nodes, Formed, WellPaired, Denotes, Reserved, CharsFormed;
    AtBound(src, i, FieldsSpelling(fs));
    UnfoldFields(src, i, depth, nodes, keys, prints);
    FieldParts(src, i, fs, nodes, keys);
    var start := FieldStart(i, fs);
    if ScanKey(src, i, nodes, keys).Stop? {
      return;
    }
    ValueAt(src, start, fs.value, depth, nodes, prints);
    if Violation(fs.value, depth, nodes, prints).Some? {
      return;
    }
    if fs.rest.Field? {
      var c := start + |Spelling(fs.value)| + |fs.after| + 1 + |fs.lead|;
      FieldsAt(src, c, fs.rest, depth, nodes + Nodes(fs.value), keys + {Denotes(fs.key)}, prints);
    }
  }

  function FieldStart(i: nat, fs: Fields): nat
    requires fs.Field?
  {
    i + |StringSpelling(fs.key)| + |fs.beforeColon| + 1 + |fs.afterColon|
  }

  /** A member and what follows it, as the scanner meets them. */
  lemma FieldParts(src: Text, i: nat, fs: Fields, nodes: nat, keys: set<Text>)
    requires FieldsFormed(fs) && fs.Field? && i <= |src| && At(src, i, FieldsSpelling(fs))
    ensures var start := FieldStart(i, fs);
            var a := start + |Spelling(fs.value)|;
            var b := a + |fs.after|;
            var c := b + 1 + |fs.lead|;
            var key := Denotes(fs.key);
            && ScanKey(src, i, nodes, keys) ==
               (if !WellPaired(key) then Stop(StringInvalid)
                else if key in keys then Stop(DuplicateKey)
                else if Reserved(key) then Stop(UnsafeKey)
                else Found(Key(fs.key, fs.beforeColon, fs.afterColon), start, nodes))
            && At(src, start, Spelling(fs.value))
            && Stops(src, a) && a <= |src| && Skip(src, a) == b < |src| && src[a..b] == fs.after
            && if fs.rest.NoFields? then Looking(src, b, RBRACE) && i + |FieldsSpelling(fs)| == b + 1
               else
                 && Looking(src, b, COMMA) && Skip(src, b + 1) == c <= |src| && src[b + 1..c] == fs.lead
                 && At(src, c, FieldsSpelling(fs.rest)) && i + |FieldsSpelling(fs)| == c + |FieldsSpelling(fs.rest)|
  {
    hide At, Spelling, StringSpelling, Skip, ScanKey, WellPaired, Denotes, Reserved, Stops;
    var separator := if fs.rest.NoFields? then [RBRACE] else [COMMA] + (fs.lead + FieldsSpelling(fs.rest));
    var tail := Spelling(fs.value) + (fs.after + separator);
    SpellingHead(fs.value);
    KeyAt(src, i, fs, tail, nodes, keys);
    var start := FieldStart(i, fs);
    TailLayout(src, start, Spelling(fs.value), fs.after, fs.rest.NoFields?, RBRACE, fs.lead, FieldsSpelling(fs.rest));
    var a := start + |Spelling(fs.value)|;
    if fs.rest.Field? {
      FieldsHead(src, a + |fs.after| + 1 + |fs.lead|, fs.rest);
    }
    TailAt(src, a, fs.after, fs.rest.NoFields?, RBRACE, fs.lead);
  }

  // ----- whatever is scanned is spelled -----

  /** The scan's own account of a tree: it is well formed, breaks no rule and stands where it was read. */
  predicate Sound(src: Text, i: nat, t: Tree, next: nat, depth: nat, nodes: nat, total: nat, prints: Numeral -> bool) {
    && Formed(t) && At(src, i, Spelling(t)) && next == i + |Spelling(t)| && total == nodes + Nodes(t)
    && Violation(t, depth, nodes, prints) == None
  }

  lemma ScalarFound(src: Text, i: nat, depth: nat, nodes: nat, prints: Numeral -> bool)
    requires i < |src| && ScanScalar(src, i, nodes + 1, prints).Found? && depth <= MAX_DEPTH && nodes + 1 <= MAX_NODES
    ensures var r := ScanScalar(src, i, nodes + 1, prints);
            Sound(src, i, r.piece, r.next, depth, nodes, r.nodes, prints)
  {
    hide At, ScanString, ScanNumeral, NumeralCanonical, WellPaired, Denotes, CharsSpelling, StringSpelling;
    var r := ScanScalar(src, i, nodes + 1, prints);
    match r.piece {
      case TStr(_) => StringFound(src, i, nodes + 1);
      case TNum(_) => NumeralFound(src, i);
      case TNull => AtSlice(src, i, NULL);
      case TBool(b) => AtSlice(src, i, if b then TRUE else FALSE);
      case _ => assert false;
    }
  }

  lemma {:induction false} ValueFound(src: Text, i: nat, depth: nat, nodes: nat, prints: Numeral -> bool)
    requires i <= |src| && ScanValue(src, i, depth, nodes, prints).Found?
    ensures var r := ScanValue(src, i, depth, nodes, prints);
            Sound(src, i, r.piece, r.next, depth, nodes, r.nodes, prints)
    decreases |src| - i, 0
  {
    if src[i] == LBRACKET {
      ArrayFound(src, i, depth, nodes, prints);
    } else if src[i] == LBRACE {
      ObjectFound(src, i, depth, nodes, prints);
    } else {
      ScalarFound(src, i, depth, nodes, prints);
    }
  }

  lemma SkipFound(src: Text, i: nat)
    requires i <= |src|
    ensures Blank(src[i..Skip(src, i)]) && At(src, i, src[i..Skip(src, i)])
  {
    SkipIsBlank(src, i);
    AtSlice(src, i, src[i..Skip(src, i)]);
  }

  predicate ElemsSound(src: Text, i: nat, es: Elems, next: nat, depth: nat, nodes: nat, total: nat,
                       prints: Numeral -> bool) {
    && ElemsFormed(es) && At(src, i, ElemsSpelling(es)) && next == i + |ElemsSpelling(es)|
    && total == nodes + ElemsNodes(es) && ElemsViolation(es, depth, nodes, prints) == None
  }

  predicate FieldsSound(src: Text, i: nat, fs: Fields, next: nat, depth: nat, nodes: nat, total: nat, keys: set<Text>,
                        prints: Numeral -> bool) {
    && FieldsFormed(fs) && At(src, i, FieldsSpelling(fs)) && next == i + |FieldsSpelling(fs)|
    && total == nodes + FieldsNodes(fs) && FieldsViolation(fs, depth, nodes, keys, prints) == None
  }

  lemma ArrayFound(src: Text, i: nat, depth: nat, nodes: nat, prints: Numeral -> bool)
    requires i < |src| && src[i] == LBRACKET && ScanValue(src, i, depth, nodes, prints).Found?
    ensures var r := ScanValue(src, i, depth, nodes, prints);
            Sound(src, i, r.piece, r.next, depth, nodes, r.nodes, prints)
    decreases |src| - i - 1, 2
  {
    hide At, Skip, Blank, ElemsSpelling, ElemsFormed, ElemsViolation, ElemsNodes, ScanElems, ScanScalar;
    var r := ScanValue(src, i, depth, nodes, prints);
    var open := Skip(src, i + 1);
    SkipFound(src, i + 1);
    if Looking(src, open, RBRACKET) {
      EmptyTails(depth + 1, nodes + 1, {}, prints);
      AtOne(src, open, RBRACKET);
      EmptyFormed();
    } else {
      ElemsFound(src, open, depth + 1, nodes + 1, prints);
    }
    OpenLayout(src, i, LBRACKET, r.piece.open, ElemsSpelling(r.piece.elems));
  }

  lemma EmptyFormed()
    ensures ElemsFormed(NoElems) && FieldsFormed(NoFields)
  {
  }

  lemma ObjectFound(src: Text, i: nat, depth: nat, nodes: nat, prints: Numeral -> bool)
    requires i < |src| && src[i] == LBRACE && ScanValue(src, i, depth, nodes, prints).Found?
    ensures var r := ScanValue(src, i, depth, nodes, prints);
            Sound(src, i, r.piece, r.next, depth, nodes, r.nodes, prints)
    decreases |src| - i - 1, 2
  {
    hide At, Skip, Blank, FieldsSpelling, FieldsFormed, FieldsViolation, FieldsNodes, ScanFields, ScanScalar;
    var r := ScanValue(src, i, depth, nodes, prints);
    var open := Skip(src, i + 1);
    SkipFound(src, i + 1);
    if Looking(src, open, RBRACE) {
      EmptyTails(depth + 1, nodes + 1, {}, prints);
      AtOne(src, open, RBRACE);
      EmptyFormed();
    } else {
      FieldsFound(src, open, depth + 1, nodes + 1, {}, prints);
    }
    OpenLayout(src, i, LBRACE, r.piece.open, FieldsSpelling(r.piece.fields));
  }

  lemma {:induction false} ElemsFound(src: Text, i: nat, depth: nat, nodes: nat, prints: Numeral -> bool)
    requires i <= |src| && ScanElems(src, i, depth, nodes, prints).Found?
    ensures var r := ScanElems(src, i, depth, nodes, prints);
            ElemsSound(src, i, r.piece, r.next, depth, nodes, r.nodes, prints)
    decreases |src| - i, 1
  {
    hide At, Skip, Blank, Spelling, Formed, Violation, Nodes, ScanElems, ScanValue;
    UnfoldElems(src, i, depth, nodes, prints);
    var r := ScanElems(src, i, depth, nodes, prints);
    var v := ScanValue(src, i, depth, nodes, prints);
    var after := Skip(src, v.next);
    ValueFound(src, i, depth, nodes, prints);
    SkipFound(src, v.next);
    EmptyTails(depth, v.nodes, {}, prints);
    EmptyFormed();
    BlankEmpty();
    if Looking(src, after, COMMA) {
      var lead := Skip(src, after + 1);
      SkipFound(src, after + 1);
      ElemsFound(src, lead, depth, v.nodes, prints);
    }
    TailLayout(src, i, Spelling(v.piece), r.piece.after, r.piece.rest.NoElems?, RBRACKET, r.piece.lead,
               ElemsSpelling(r.piece.rest));
  }

  lemma BlankEmpty()
    ensures Blank([])
  {
  }

  lemma KeyFound(src: Text, i: nat, nodes: nat, keys: set<Text>, tail: Text)
    requires i <= |src| && ScanKey(src, i, nodes, keys).Found? && At(src, ScanKey(src, i, nodes, keys).next, tail)
    ensures var k := ScanKey(src, i, nodes, keys);
            var key := k.piece;
            var spelling := StringSpelling(key.chars) + (key.before + ([COLON] + (key.after + tail)));
            && At(src, i, spelling) && |spelling| == k.next + |tail| - i
            && Blank(key.before) && Blank(key.after)
            && WellPaired(Denotes(key.chars)) && Denotes(key.chars) !in keys && !Reserved(Denotes(key.chars))
  {
    hide At, Skip, Blank, StringSpelling, ScanString, WellPaired, Denotes, Reserved;
    var key := ScanKey(src, i, nodes, keys).piece;
    var next := ScanString(src, i, nodes).next;
    var colon := Skip(src, next);
    StringFound(src, i, nodes);
    SkipFound(src, next);
    SkipFound(src, colon + 1);
    OpenLayout(src, colon, COLON, key.after, tail);
    AtSplit(src, next, key.before, [COLON] + (key.after + tail));
    AtSplit(src, i, StringSpelling(key.chars), key.before + ([COLON] + (key.after + tail)));
  }

  /** A scanned member and whatever follows it stand where they were read. */
  lemma FieldSpelled(src: Text, i: nat, fs: Fields, start: nat, a: nat, nodes: nat, keys: set<Text>)
    requires i <= |src| && fs.Field? && ScanKey(src, i, nodes, keys) ==
             Found(Key(fs.key, fs.beforeColon, fs.afterColon), start, nodes)
    requires At(src, start, Spelling(fs.value)) && a == start + |Spelling(fs.value)| && At(src, a, fs.after)
    requires var b := a + |fs.after|;
             if fs.rest.NoFields? then
               Looking(src, b, RBRACE)
             else
               && Looking(src, b, COMMA)
               && At(src, b + 1, fs.lead)
               && At(src, b + 1 + |fs.lead|, FieldsSpelling(fs.rest))
    ensures At(src, i, FieldsSpelling(fs))
    ensures i + |FieldsSpelling(fs)| == a + |fs.after| + 1 +
            if fs.rest.NoFields? then 0 else |fs.lead| + |FieldsSpelling(fs.rest)|
    ensures Blank(fs.beforeColon) && Blank(fs.afterColon) && WellPaired(Denotes(fs.key))
    ensures Denotes(fs.key) !in keys && !Reserved(Denotes(fs.key))
  {
    hide At, Skip, Blank, Spelling, StringSpelling, ScanKey, WellPaired, Denotes, Reserved, CharsFormed;
    var separator := if fs.rest.NoFields? then [RBRACE] else [COMMA] + (fs.lead + FieldsSpelling(fs.rest));
    TailLayout(src, start, Spelling(fs.value), fs.after, fs.rest.NoFields?, RBRACE, fs.lead, FieldsSpelling(fs.rest));
    KeyFound(src, i, nodes, keys, Spelling(fs.value) + (fs.after + separator));
  }

  lemma {:induction false} FieldsFound(src: Text, i: nat, depth: nat, nodes: nat, keys: set<Text>,
                                       prints: Numeral -> bool)
    requires i <= |src| && ScanFields(src, i, depth, nodes, keys, prints).Found?
    ensures var r := ScanFields(src, i, depth, nodes, keys, prints);
            FieldsSound(src, i, r.piece, r.next, depth, nodes, r.nodes, keys, prints)
    decreases |src| - i, 1
  {
    hide At, Skip, Blank, Spelling, FieldsSpelling, StringSpelling, Formed, Violation, Nodes, ScanFields,
      ScanValue, ScanKey, WellPaired, Denotes, Reserved, CharsFormed;
    UnfoldFields(src, i, depth, nodes, keys, prints);
    var r := ScanFields(src, i, depth, nodes, keys, prints);
    var k := ScanKey(src, i, nodes, keys);
    var v := ScanValue(src, k.next, depth, nodes, prints);
    var after := Skip(src, v.next);
    ValueFound(src, k.next, depth, nodes, prints);
    SkipFound(src, v.next);
    EmptyTails(depth, v.nodes, keys + {Denotes(k.piece.chars)}, prints);
    EmptyFormed();
    BlankEmpty();
    if Looking(src, after, COMMA) {
      SkipFound(src, after + 1);
      FieldsFound(src, Skip(src, after + 1), depth, v.nodes, keys + {Denotes(k.piece.chars)}, prints);
    }
    FieldSpelled(src, i, r.piece, k.next, v.next, nodes, keys);
  }

  // ----- the language -----

  /** A text that is one tree with white space around it. */
  ghost predicate Spells(src: Text, before: Text, t: Tree, after: Text) {
    Blank(before) && Formed(t) && Blank(after) && src == before + Spelling(t) + after
  }

  /** On an RFC 8259 text the scanner accepts, or throws for the first rule the text breaks. */
  lemma InspectSpelled(src: Text, before: Text, t: Tree, after: Text, prints: Numeral -> bool)
    requires Spells(src, before, t, after)
    ensures Inspect(src, prints) == Verdict(Violation(t, 1, 0, prints), t, |src|, Nodes(t))
  {
    hide At, Skip, Spelling, ScanValue, Violation, Formed;
    var i := |before|;
    var j := i + |Spelling(t)|;
    AtSlice(src, 0, before);
    AtSlice(src, i, Spelling(t));
    AtSlice(src, j, after);
    assert src[0..i] == before && src[i..j] == Spelling(t) && src[j..|src|] == after;
    SpellingHead(t);
    assert src[i] == Spelling(t)[0];
    BlankAt(src, 0, before);
    if after != [] {
      assert src[j] == after[0];
    }
    ValueAt(src, i, t, 1, 0, prints);
    BlankAt(src, j, after);
  }

  /** Whatever the scanner accepts is spelled by the tree it read, which breaks no rule. */
  lemma InspectFound(src: Text, prints: Numeral -> bool) returns (before: Text, after: Text)
    requires Inspect(src, prints).Found?
    ensures Spells(src, before, Inspect(src, prints).piece, after)
    ensures Admissible(Inspect(src, prints).piece, prints)
  {
    hide At, Skip, Blank, Spelling, ScanValue, Violation, Formed, Clean, Depth, Nodes;
    var i := Skip(src, 0);
    var r := ScanValue(src, i, 1, 0, prints);
    before, after := src[0..i], src[r.next..];
    SkipFound(src, 0);
    ValueFound(src, i, 1, 0, prints);
    SkipFound(src, r.next);
    NoViolation(r.piece, 1, 0, prints);
    AtSlice(src, i, Spelling(r.piece));
    assert src[r.next..] == src[r.next..Skip(src, r.next)];
    assert src == src[0..i] + src[i..r.next] + src[r.next..];
  }

  /**
    The scanner accepts exactly the RFC 8259 texts with canonical numbers, well-formed
    strings, distinct unreserved keys, at most 32 levels and at most 4096 values.
   */
  lemma AcceptsIffAdmissible(src: Text, prints: Numeral -> bool)
    ensures Inspect(src, prints).Found? <==>
            exists before, t, after :: Spells(src, before, t, after) && Admissible(t, prints)
  {
    if Inspect(src, prints).Found? {
      var before, after := InspectFound(src, prints);
    }
    forall before, t, after | Spells(src, before, t, after) && Admissible(t, prints)
      ensures Inspect(src, prints).Found?
    {
      NoViolation(t, 1, 0, prints);
      InspectSpelled(src, before, t, after, prints);
    }
  }

  /** RFC 8259 is unambiguous on accepted texts: one text, one tree. */
  lemma AdmissibleUnique(src: Text, before: Text, t: Tree, after: Text, before': Text, t': Tree, after': Text,
                         prints: Numeral -> bool)
    requires Spells(src, before, t, after) && Admissible(t, prints)
    requires Spells(src, before', t', after')
    ensures t == t'
  {
    hide Violation, Inspect, Clean, Depth, Nodes, Spelling;
    NoViolation(t, 1, 0, prints);
    InspectSpelled(src, before, t, after, prints);
    InspectSpelled(src, before', t', after', prints);
  }
}
