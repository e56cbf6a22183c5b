/**
  The grammar of RFC 8259 (sections 2 to 7) as concrete syntax trees, independent of
  any scanner: what a tree spells, what it means, and the protocol's extra rules.
 */
module JsonGrammar {
  import opened Results
  import opened Utf16
  import opened Decimal
  import opened Numerals
  import opened JsonValue
  import opened Canonicalizer

  /** One unit of a string literal: itself, a two-character escape, or a \u escape. */
  datatype Char = Plainly(c: CodeUnit) | Short(letter: CodeUnit) | Hex(h: seq<CodeUnit>)

  datatype Tree =
    | TNull
    | TBool(b: bool)
    | TNum(m: Numeral)
    | TStr(chars: seq<Char>)
    | TArr(open: Text, elems: Elems)
    | TObj(open: Text, fields: Fields)

  /** Elements, each with the white space after it and after the comma that follows. */
  datatype Elems = NoElems | Elem(value: Tree, after: Text, lead: Text, rest: Elems)

  /** Members, with the white space after the key, the colon, the value and the comma. */
  datatype Fields =
    | NoFields
    | Field(key: seq<Char>, beforeColon: Text, afterColon: Text, value: Tree, after: Text, lead: Text, rest: Fields)

  // ----- characters -----

  predicate IsSpace(c: CodeUnit) {
    c == 0x20 || c == 0x09 || c == 0x0A || c == 0x0D
  }

  predicate Blank(s: Text) {
    forall i :: 0 <= i < |s| ==> IsSpace(s[i])
  }

  predicate IsHex(c: CodeUnit) {
    0x30 <= c <= 0x39 || 0x41 <= c <= 0x46 || 0x61 <= c <= 0x66
  }

  function HexValue(c: CodeUnit): (n: CodeUnit)
    requires IsHex(c)
    ensures n < 16
  {
    if c <= 0x39 then c - 0x30 else if c <= 0x46 then c - 0x41 + 10 else c - 0x61 + 10
  }

  /** The letters allowed after a backslash, other than `u`. */
  predicate EscapeLetter(c: CodeUnit) {
    c in {0x22, 0x5C, 0x2F, 0x62, 0x66, 0x6E, 0x72, 0x74}
  }

  predicate CharFormed(ch: Char) {
    match ch
    case Plainly(c) => 0x1F < c && c != QUOTE && c != BACKSLASH
    case Short(letter) => EscapeLetter(letter)
    case Hex(h) => |h| == 4 && forall i :: 0 <= i < 4 ==> IsHex(h[i])
  }

  predicate CharsFormed(chars: seq<Char>) {
    forall i :: 0 <= i < |chars| ==> CharFormed(chars[i])
  }

  function CharSpelling(ch: Char): Text {
    match ch
    case Plainly(c) => [c]
    case Short(letter) => [BACKSLASH, letter]
    case Hex(h) => [BACKSLASH, 0x75] + h
  }

  function CharsSpelling(chars: seq<Char>): Text {
    if chars == [] then [] else CharSpelling(chars[0]) + CharsSpelling(chars[1..])
  }

  function Unescape(letter: CodeUnit): CodeUnit {
    if letter == 0x62 then 0x08
    else if letter == 0x66 then 0x0C
    else if letter == 0x6E then 0x0A
    else if letter == 0x72 then 0x0D
    else if letter == 0x74 then 0x09
    else letter
  }

  function CharMeaning(ch: Char): CodeUnit
    requires CharFormed(ch)
  {
    match ch
    case Plainly(c) => c
    case Short(letter) => Unescape(letter)
    case Hex(h) => ((HexValue(h[0]) * 16 + HexValue(h[1])) * 16 + HexValue(h[2])) * 16 + HexValue(h[3])
  }

  /** The string a literal denotes (RFC 8259 section 7). */
  function Denotes(chars: seq<Char>): (s: Text)
    requires CharsFormed(chars)
    ensures |s| == |chars|
    ensures forall i :: 0 <= i < |s| ==> s[i] == CharMeaning(chars[i])
  {
    seq<CodeUnit>(|chars|, i requires 0 <= i < |chars| => CharMeaning(chars[i]))
  }

  // ----- well-formed trees and what they spell -----

  predicate Formed(t: Tree) {
    match t
    case TNull => true
    case TBool(_) => true
    case TNum(m) => m.WellFormed()
    case TStr(chars) => CharsFormed(chars)
    case TArr(open, elems) => Blank(open) && ElemsFormed(elems)
    case TObj(open, fields) => Blank(open) && FieldsFormed(fields)
  }

  predicate ElemsFormed(es: Elems) {
    match es
    case NoElems => true
    case Elem(v, after, lead, rest) =>
      Formed(v) && Blank(after) && Blank(lead) && (rest.NoElems? ==> lead == []) && ElemsFormed(rest)
  }

  predicate FieldsFormed(fs: Fields) {
    match fs
    case NoFields => true
    case Field(key, before, afterColon, v, after, lead, rest) =>
      && CharsFormed(key) && Blank(before) && Blank(afterColon)
      && Formed(v) && Blank(after) && Blank(lead) && (rest.NoFields? ==> lead == []) && FieldsFormed(rest)
  }

  function StringSpelling(chars: seq<Char>): Text {
    [QUOTE] + CharsSpelling(chars) + [QUOTE]
  }

  function Spelling(t: Tree): Text {
    match t
    case TNull => NULL
    case TBool(b) => if b then TRUE else FALSE
    case TNum(m) => m.Lexeme()
    case TStr(chars) => StringSpelling(chars)
    case TArr(open, elems) => [LBRACKET] + (open + ElemsSpelling(elems))
    case TObj(open, fields) => [LBRACE] + (open + FieldsSpelling(fields))
  }

  /** From the first element to the closing bracket. */
  function ElemsSpelling(es: Elems): Text {
    match es
    case NoElems => [RBRACKET]
    case Elem(v, after, lead, rest) =>
      Spelling(v) + (after + (if rest.NoElems? then [RBRACKET] else [COMMA] + (lead + ElemsSpelling(rest))))
  }

  /** From the first key to the closing brace. */
  function FieldsSpelling(fs: Fields): Text {
    match fs
    case NoFields => [RBRACE]
    case Field(key, before, afterColon, v, after, lead, rest) =>
      StringSpelling(key) + (before + ([COLON] + (afterColon + (Spelling(v) + (after +
        (if rest.NoFields? then [RBRACE] else [COMMA] + (lead + FieldsSpelling(rest))))))))
  }

  // ----- what trees mean -----

  function NumberMeaning(m: Numeral): Number
    requires m.WellFormed()
  {
    if m.IsReal() then Real(m) else Integer(IntegerOf(m))
  }

  /** The value `JSON.parse` builds. */
  function Meaning(t: Tree): Json
    requires Formed(t)
  {
    match t
    case TNull => Null
    case TBool(b) => Bool(b)
    case TNum(m) => Num(NumberMeaning(m))
    case TStr(chars) => Str(Denotes(chars))
    case TArr(_, elems) => Arr(ElemsMeaning(elems))
    case TObj(_, fields) => Obj(FieldsMeaning(fields))
  }

  function ElemsMeaning(es: Elems): seq<Json>
    requires ElemsFormed(es)
  {
    match es
    case NoElems => []
    case Elem(v, _, _, rest) => [Meaning(v)] + ElemsMeaning(rest)
  }

  function FieldsMeaning(fs: Fields): seq<Member>
    requires FieldsFormed(fs)
  {
    match fs
    case NoFields => []
    case Field(key, _, _, v, _, _, rest) => [Member(Denotes(key), Meaning(v))] + FieldsMeaning(rest)
  }

  // ----- the protocol's rules beyond RFC 8259 -----

  function Nodes(t: Tree): nat {
    match t
    case TArr(_, elems) => 1 + ElemsNodes(elems)
    case TObj(_, fields) => 1 + FieldsNodes(fields)
    case _ => 1
  }

  function ElemsNodes(es: Elems): nat {
    match es
    case NoElems => 0
    case Elem(v, _, _, rest) => Nodes(v) + ElemsNodes(rest)
  }

  function FieldsNodes(fs: Fields): nat {
    match fs
    case NoFields => 0
    case Field(_, _, _, v, _, _, rest) => Nodes(v) + FieldsNodes(rest)
  }

  function Max(a: nat, b: nat): nat {
    if a < b then b else a
  }

  function Depth(t: Tree): nat {
    match t
    case TArr(_, elems) => 1 + ElemsDepth(elems)
    case TObj(_, fields) => 1 + FieldsDepth(fields)
    case _ => 1
  }

  function ElemsDepth(es: Elems): nat {
    match es
    case NoElems => 0
    case Elem(v, _, _, rest) => Max(Depth(v), ElemsDepth(rest))
  }

  function FieldsDepth(fs: Fields): nat {
    match fs
    case NoFields => 0
    case Field(_, _, _, v, _, _, rest) => Max(Depth(v), FieldsDepth(rest))
  }

  /** The numeral is the print of a supported number. */
  predicate NumeralCanonical(m: Numeral, prints: Numeral -> bool)
    requires m.WellFormed()
  {
    if m.IsReal() then prints(m) else SafeInteger(IntegerOf(m)) && OfInteger(IntegerOf(m)) == m
  }

  /** Of the numerals without fraction and exponent, all are canonical but `-0` and those of unsafe integers. */
  lemma CanonicalIntegers(m: Numeral, prints: Numeral -> bool)
    requires m.WellFormed() && !m.IsReal()
    ensures NumeralCanonical(m, prints) <==> SafeInteger(IntegerOf(m)) && !(m.negative && m.whole == [ZERO])
  {
    OfIntegerIntegerOf(m);
  }

  /** Canonical numerals, well-paired strings, and no key that is reserved or repeated. */
  predicate Clean(t: Tree, prints: Numeral -> bool)
    requires Formed(t)
  {
    match t
    case TNull => true
    case TBool(_) => true
    case TNum(m) => NumeralCanonical(m, prints)
    case TStr(chars) => WellPaired(Denotes(chars))
    case TArr(_, elems) => ElemsClean(elems, prints)
    case TObj(_, fields) => FieldsClean(fields, prints) && DistinctKeys(FieldsMeaning(fields))
  }

  predicate ElemsClean(es: Elems, prints: Numeral -> bool)
    requires ElemsFormed(es)
  {
    match es
    case NoElems => true
    case Elem(v, _, _, rest) => Clean(v, prints) && ElemsClean(rest, prints)
  }

  predicate FieldsClean(fs: Fields, prints: Numeral -> bool)
    requires FieldsFormed(fs)
  {
    match fs
    case NoFields => true
    case Field(key, _, _, v, _, _, rest) =>
      && WellPaired(Denotes(key)) && !Reserved(Denotes(key))
      && Clean(v, prints) && FieldsClean(rest, prints)
  }

  /** Everything the protocol asks of a JSON text. */
  predicate Admissible(t: Tree, prints: Numeral -> bool) {
    Formed(t) && Clean(t, prints) && Depth(t) <= MAX_DEPTH && Nodes(t) <= MAX_NODES
  }
}
