/**
  What the strict scanner computes, as functions on the source text and an index.
  The scanner class is proved against these; the theorems about the language they
  accept are in `JsonLanguage`.
 */
module JsonScan {
  import opened Results
  import opened Utf16
  import opened Decimal
  import opened Numerals
  import opened JsonValue
  import opened Canonicalizer
  import opened JsonGrammar

  datatype ScanError =
    | Invalid
    | DuplicateKey
    | NumberInvalid
    | StringInvalid
    | UnsafeKey
    | TooDeep
    | TooComplex

  /** A recognised piece, the index after it and the node count so far; or the error thrown. */
  datatype Scan<+T> = Found(piece: T, next: nat, nodes: nat) | Stop(error: ScanError)

  predicate Looking(src: Text, i: nat, c: CodeUnit) {
    i < |src| && src[i] == c
  }

  function Skip(src: Text, i: nat): (j: nat)
    requires i <= |src|
    ensures i <= j <= |src|
    decreases |src| - i
  {
    if i < |src| && IsSpace(src[i]) then Skip(src, i + 1) else i
  }

  // ----- the regular expression of `#number` -----

  predicate DigitAt(src: Text, i: nat) {
    i < |src| && IsDigit(src[i])
  }

  function DigitsEnd(src: Text, i: nat): (j: nat)
    requires i <= |src|
    ensures i <= j <= |src| && AllDigits(src[i..j])
    ensures DigitAt(src, i) ==> i < j
    decreases |src| - i
  {
    if DigitAt(src, i) then DigitsEnd(src, i + 1) else i
  }

  function WholeEnd(src: Text, i: nat): (j: nat)
    requires DigitAt(src, i)
    ensures i < j <= |src| && IsNatural(src[i..j])
  {
    if src[i] == ZERO then i + 1 else DigitsEnd(src, i)
  }

  /** Where the optional fraction that may start at `i` ends; `i` itself if there is none. */
  function FractionEnd(src: Text, i: nat): (j: nat)
    requires i <= |src|
    ensures i <= j <= |src|
    ensures i < j ==> Looking(src, i, POINT) && i + 1 < j && AllDigits(src[i + 1..j])
  {
    if Looking(src, i, POINT) && DigitAt(src, i + 1) then DigitsEnd(src, i + 1) else i
  }

  /** The exponent a text of at least two units spells. */
  function ReadExponent(s: Text): (e: Exponent)
    requires 2 <= |s|
    ensures e.Lexeme() == s
  {
    if s[1] in {PLUS, MINUS} then
      assert s == [s[0]] + [s[1]] + s[2..];
      Exponent(s[0], Some(s[1]), s[2..])
    else
      assert s == [s[0]] + [] + s[1..];
      Exponent(s[0], None, s[1..])
  }

  /** Where the optional exponent that may start at `i` ends; `i` itself if there is none. */
  function ExponentEnd(src: Text, i: nat): (j: nat)
    requires i <= |src|
    ensures i <= j <= |src|
    ensures i < j ==> i + 2 <= j && ReadExponent(src[i..j]).WellFormed()
  {
    if i < |src| && src[i] in {0x65, 0x45} then
      var start := if i + 1 < |src| && src[i + 1] in {PLUS, MINUS} then i + 2 else i + 1;
      if DigitAt(src, start) then
        var j := DigitsEnd(src, start);
        assert src[i..j][start - i..] == src[start..j];
        j
      else i
    else i
  }

  datatype NumeralScan = NoNumeral | Matched(m: Numeral, next: nat)

  /** The longest numeral at `i`, if there is one. */
  function ScanNumeral(src: Text, i: nat): (r: NumeralScan)
    requires i <= |src|
    ensures r.Matched? ==> r.m.WellFormed() && i < r.next <= |src|
  {
    var start := if Looking(src, i, MINUS) then i + 1 else i;
    if !DigitAt(src, start) then NoNumeral
    else
      var whole := WholeEnd(src, start);
      var point := FractionEnd(src, whole);
      var end := ExponentEnd(src, point);
      Matched(Numeral(Looking(src, i, MINUS), src[start..whole],
                      if whole < point then Some(src[whole + 1..point]) else None,
                      if point < end then Some(ReadExponent(src[point..end])) else None), end)
  }

  // ----- strings -----

  /** One character of a literal: itself or an escape. */
  function ScanChar(src: Text, i: nat): (r: Option<Char>)
    requires i < |src|
    ensures r.Some? ==> CharFormed(r.value) && i + |CharSpelling(r.value)| <= |src|
  {
    if src[i] == BACKSLASH then
      if Looking(src, i + 1, 0x75) then
        if i + 6 <= |src| && forall k :: i + 2 <= k < i + 6 ==> IsHex(src[k]) then
          Some(Hex(src[i + 2..i + 6]))
        else None
      else if i + 1 < |src| && EscapeLetter(src[i + 1]) then Some(Short(src[i + 1]))
      else None
    else if src[i] == QUOTE || src[i] <= 0x1F then None
    else Some(Plainly(src[i]))
  }

  /** From after the opening quote to after the closing one. */
  function ScanChars(src: Text, i: nat, nodes: nat): (r: Scan<seq<Char>>)
    requires i <= |src|
    ensures r.Found? ==> CharsFormed(r.piece) && i < r.next <= |src| && r.nodes == nodes
    decreases |src| - i
  {
    if i == |src| then Stop(Invalid)
    else if src[i] == QUOTE then Found([], i + 1, nodes)
    else
      match ScanChar(src, i)
      case None => Stop(Invalid)
      case Some(ch) =>
        match ScanChars(src, i + |CharSpelling(ch)|, nodes)
        case Stop(e) => Stop(e)
        case Found(chars, next, _) => Found([ch] + chars, next, nodes)
  }

  function ScanString(src: Text, i: nat, nodes: nat): (r: Scan<seq<Char>>)
    requires i <= |src|
    ensures r.Found? ==> CharsFormed(r.piece) && i < r.next <= |src| && r.nodes == nodes
  {
    if !Looking(src, i, QUOTE) then Stop(Invalid)
    else
      match ScanChars(src, i + 1, nodes)
      case Stop(e) => Stop(e)
      case Found(chars, next, _) =>
        if WellPaired(Denotes(chars)) then Found(chars, next, nodes) else Stop(StringInvalid)
  }

  // ----- values -----

  predicate Starts(src: Text, i: nat, literal: Text) {
    i + |literal| <= |src| && src[i..i + |literal|] == literal
  }

  function ScanLiteral(src: Text, i: nat, literal: Text, t: Tree, nodes: nat): (r: Scan<Tree>)
    requires literal != []
    ensures r.Found? ==> i < r.next <= |src|
  {
    if Starts(src, i, literal) then Found(t, i + |literal|, nodes) else Stop(Invalid)
  }

  /** A value that is neither an array nor an object. */
  function ScanScalar(src: Text, i: nat, nodes: nat, prints: Numeral -> bool): (r: Scan<Tree>)
    requires i < |src|
    ensures r.Found? ==> i < r.next <= |src|
  {
    if src[i] == QUOTE then
      match ScanString(src, i, nodes)
      case Stop(e) => Stop(e)
      case Found(chars, next, _) => Found(TStr(chars), next, nodes)
    else if src[i] == 0x74 then ScanLiteral(src, i, TRUE, TBool(true), nodes)
    else if src[i] == 0x66 then ScanLiteral(src, i, FALSE, TBool(false), nodes)
    else if src[i] == 0x6E then ScanLiteral(src, i, NULL, TNull, nodes)
    else if src[i] == MINUS || IsDigit(src[i]) then
      match ScanNumeral(src, i)
      case NoNumeral => Stop(Invalid)
      case Matched(m, next) =>
        if NumeralCanonical(m, prints) then Found(TNum(m), next, nodes) else Stop(NumberInvalid)
    else Stop(Invalid)
  }

  function ScanValue(src: Text, i: nat, depth: nat, nodes: nat, prints: Numeral -> bool): (r: Scan<Tree>)
    requires i <= |src|
    ensures r.Found? ==> i < r.next <= |src|
    decreases |src| - i, 0
  {
    if depth > MAX_DEPTH then Stop(TooDeep)
    else if nodes + 1 > MAX_NODES then Stop(TooComplex)
    else if i == |src| then Stop(Invalid)
    else if src[i] == LBRACE then
      var open := Skip(src, i + 1);
      if Looking(src, open, RBRACE) then Found(TObj(src[i + 1..open], NoFields), open + 1, nodes + 1)
      else
        match ScanFields(src, open, depth + 1, nodes + 1, {}, prints)
        case Stop(e) => Stop(e)
        case Found(fields, next, n) => Found(TObj(src[i + 1..open], fields), next, n)
    else if src[i] == LBRACKET then
      var open := Skip(src, i + 1);
      if Looking(src, open, RBRACKET) then Found(TArr(src[i + 1..open], NoElems), open + 1, nodes + 1)
      else
        match ScanElems(src, open, depth + 1, nodes + 1, prints)
        case Stop(e) => Stop(e)
        case Found(elems, next, n) => Found(TArr(src[i + 1..open], elems), next, n)
    else ScanScalar(src, i, nodes + 1, prints)
  }

  /** The loop of `#array`, from the start of an element. */
  function ScanElems(src: Text, i: nat, depth: nat, nodes: nat, prints: Numeral -> bool): (r: Scan<Elems>)
    requires i <= |src|
    ensures r.Found? ==> i < r.next <= |src| && r.piece.Elem?
    decreases |src| - i, 1
  {
    var v := ScanValue(src, i, depth, nodes, prints);
    if v.Stop? then Stop(v.error)
    else
      EndElem(src, v, if Comma(src, v.next) then ScanElems(src, AfterComma(src, v.next), depth, v.nodes, prints)
                      else Stop(Invalid))
  }

  /** A comma comes next, white space aside. */
  predicate Comma(src: Text, i: nat)
    requires i <= |src|
  {
    Looking(src, Skip(src, i), COMMA)
  }

  function AfterComma(src: Text, i: nat): (j: nat)
    requires i <= |src| && Comma(src, i)
    ensures i < j <= |src|
  {
    Skip(src, Skip(src, i) + 1)
  }

  /** One pass of the loop after its value, given the outcome of the passes that follow. */
  function EndElem(src: Text, v: Scan<Tree>, rest: Scan<Elems>): (r: Scan<Elems>)
    requires v.Found? && v.next <= |src| && (rest.Found? ==> v.next < rest.next <= |src|)
    ensures r.Found? ==> v.next < r.next <= |src| && r.piece.Elem?
  {
    var after := Skip(src, v.next);
    if Looking(src, after, RBRACKET) then Found(Elem(v.piece, src[v.next..after], [], NoElems), after + 1, v.nodes)
    else if !Comma(src, v.next) then Stop(Invalid)
    else
      match rest
      case Stop(e) => Stop(e)
      case Found(elems, end, total) =>
        Found(Elem(v.piece, src[v.next..after], src[after + 1..AfterComma(src, v.next)], elems), end, total)
  }

  /** The loop of `#object`, from the start of a key. */
  function ScanFields(src: Text, i: nat, depth: nat, nodes: nat, keys: set<Text>, prints: Numeral -> bool):
    (r: Scan<Fields>)
    requires i <= |src|
    ensures r.Found? ==> i < r.next <= |src| && r.piece.Field?
    decreases |src| - i, 1
  {
    var k := ScanKey(src, i, nodes, keys);
    if k.Stop? then Stop(k.error)
    else
      var v := ScanValue(src, k.next, depth, nodes, prints);
      if v.Stop? then Stop(v.error)
      else
        EndField(src, k.piece, v,
                 if Comma(src, v.next)
                 then ScanFields(src, AfterComma(src, v.next), depth, v.nodes, keys + {Denotes(k.piece.chars)}, prints)
                 else Stop(Invalid))
  }

  function EndField(src: Text, key: Key, v: Scan<Tree>, rest: Scan<Fields>): (r: Scan<Fields>)
    requires v.Found? && v.next <= |src| && (rest.Found? ==> v.next < rest.next <= |src|)
    ensures r.Found? ==> v.next < r.next <= |src| && r.piece.Field?
  {
    var after := Skip(src, v.next);
    if Looking(src, after, RBRACE) then
      Found(Field(key.chars, key.before, key.after, v.piece, src[v.next..after], [], NoFields), after + 1, v.nodes)
    else if !Comma(src, v.next) then Stop(Invalid)
    else
      match rest
      case Stop(e) => Stop(e)
      case Found(fields, end, total) =>
        Found(Field(key.chars, key.before, key.after, v.piece, src[v.next..after],
                    src[after + 1..AfterComma(src, v.next)], fields), end, total)
  }

  /** One pass of each loop, for proofs that keep the loops folded. */
  lemma UnfoldElems(src: Text, i: nat, depth: nat, nodes: nat, prints: Numeral -> bool)
    requires i <= |src|
    ensures var v := ScanValue(src, i, depth, nodes, prints);
            ScanElems(src, i, depth, nodes, prints) ==
            if v.Stop? then Stop(v.error)
            else EndElem(src, v, if Comma(src, v.next)
                                 then ScanElems(src, AfterComma(src, v.next), depth, v.nodes, prints)
                                 else Stop(Invalid))
  {
    hide ScanValue, EndElem, Comma, AfterComma;
  }

  lemma UnfoldFields(src: Text, i: nat, depth: nat, nodes: nat, keys: set<Text>, prints: Numeral -> bool)
    requires i <= |src|
    ensures var k := ScanKey(src, i, nodes, keys);
            ScanFields(src, i, depth, nodes, keys, prints) ==
            if k.Stop? then Stop(k.error)
            else
              var v := ScanValue(src, k.next, depth, nodes, prints);
              if v.Stop? then Stop(v.error)
              else EndField(src, k.piece, v,
                            if Comma(src, v.next)
                            then ScanFields(src, AfterComma(src, v.next), depth, v.nodes,
                                            keys + {Denotes(k.piece.chars)}, prints)
                            else Stop(Invalid))
  {
    hide ScanKey, ScanValue, EndField, Comma, AfterComma;
  }

  /** A key, and the white space before and after its colon. */
  datatype Key = Key(chars: seq<Char>, before: Text, after: Text)

  function ScanKey(src: Text, i: nat, nodes: nat, keys: set<Text>): (r: Scan<Key>)
    requires i <= |src|
    ensures r.Found? ==> CharsFormed(r.piece.chars) && i < r.next <= |src| && r.nodes == nodes
  {
    match ScanString(src, i, nodes)
    case Stop(e) => Stop(e)
    case Found(chars, next, _) =>
      if Denotes(chars) in keys then Stop(DuplicateKey)
      else if Reserved(Denotes(chars)) then Stop(UnsafeKey)
      else
        var colon := Skip(src, next);
        if !Looking(src, colon, COLON) then Stop(Invalid)
        else
          var start := Skip(src, colon + 1);
          Found(Key(chars, src[next..colon], src[colon + 1..start]), start, nodes)
  }

  /** `inspect`: one value with white space around it and nothing else. */
  function Inspect(src: Text, prints: Numeral -> bool): (r: Scan<Tree>) {
    match ScanValue(src, Skip(src, 0), 1, 0, prints)
    case Stop(e) => Stop(e)
    case Found(t, next, nodes) =>
      if Skip(src, next) == |src| then Found(t, |src|, nodes) else Stop(Invalid)
  }
}
