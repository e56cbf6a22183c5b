/**
  The three-line envelope around one JSON object, and when a canonical object survives
  being framed and parsed again.
 */
module Envelope {
  import opened Results
  import opened Utf16
  import opened Decimal
  import opened Numerals
  import opened JsonValue
  import opened Canonicalizer
  import opened JsonGrammar
  import opened JsonScan
  import opened JsonLanguage
  import opened JsonRoundTrip

  const LINE_FEED: CodeUnit := 0x0A
  const CARRIAGE_RETURN: CodeUnit := 0x0D
  const BYTE_ORDER_MARK: CodeUnit := 0xFEFF
  const MAX_ENVELOPE_BYTES := 256 * 1024

  /** "GSB/2 BEGIN" and "GSB/2 END", each with its line feed. */
  const PREFIX: Text := [0x47, 0x53, 0x42, 0x2F, 0x32, 0x20, 0x42, 0x45, 0x47, 0x49, 0x4E, 0x0A]
  const SUFFIX: Text := [0x0A, 0x47, 0x53, 0x42, 0x2F, 0x32, 0x20, 0x45, 0x4E, 0x44]

  datatype EnvelopeError = TooLarge | BadEnvelope | Structure(error: ScanError) | ArgumentsTooLarge | FinalTextTooLarge

  /** Bytes of the UTF-8 encoding; a lone surrogate is encoded as U+FFFD, three bytes. */
  function Utf8Length(s: Text): nat {
    if s == [] then 0
    else if s[0] < 0x80 then 1 + Utf8Length(s[1..])
    else if s[0] < 0x800 then 2 + Utf8Length(s[1..])
    else if IsHigh(s[0]) && 1 < |s| && IsLow(s[1]) then 4 + Utf8Length(s[2..])
    else 3 + Utf8Length(s[1..])
  }

  predicate StartsWith(text: Text, prefix: Text) {
    |prefix| <= |text| && text[..|prefix|] == prefix
  }

  predicate EndsWith(text: Text, suffix: Text) {
    |suffix| <= |text| && text[|text| - |suffix|..] == suffix
  }

  /** `text.slice(prefix.length, -suffix.length)`, empty when the two overlap. */
  function Between(text: Text): Text {
    if |PREFIX| + |SUFFIX| <= |text| then text[|PREFIX|..|text| - |SUFFIX|] else []
  }

  predicate GoodBody(body: Text) {
    && body != [] && body[0] == LBRACE && body[|body| - 1] == RBRACE
    && LINE_FEED !in body && CARRIAGE_RETURN !in body && BYTE_ORDER_MARK !in body
  }

  /** `parseToolWorkflowAssistantEnvelope` up to the envelope's own schema: the object between the markers. */
  function Unwrap(text: Text, prints: Numeral -> bool): Result<Json, EnvelopeError> {
    if Utf8Length(text) > MAX_ENVELOPE_BYTES then Err(TooLarge)
    else if !StartsWith(text, PREFIX) || !EndsWith(text, SUFFIX) then Err(BadEnvelope)
    else if !GoodBody(Between(text)) then Err(BadEnvelope)
    else
      match Inspect(Between(text), prints)
      case Stop(e) => Err(Structure(e))
      case Found(t, _, _) => if Formed(t) then Ok(Meaning(t)) else Err(BadEnvelope)
  }

  function Frame(body: Text): Text {
    PREFIX + body + SUFFIX
  }

  /** What is unwrapped is one line, a JSON object, between the two marker lines. */
  lemma UnwrappedIsFramed(text: Text, prints: Numeral -> bool)
    requires Unwrap(text, prints).Ok?
    ensures exists body :: text == Frame(body) && GoodBody(body) && Inspect(body, prints).Found?
    ensures Unwrap(text, prints).value.Obj? && Plain(Unwrap(text, prints).value)
    ensures CanonicalText(Unwrap(text, prints).value, prints).Ok?
  {
    var body := Between(text);
    assert text == PREFIX + body + SUFFIX;
    assert text == Frame(body) && GoodBody(body) && Inspect(body, prints).Found?;
    ScannedIsCanonicalizable(body, prints);
    var before, after := InspectFound(body, prints);
    var t := Inspect(body, prints).piece;
    NoBlankHead(before, Spelling(t) + after);
    assert body == before + (Spelling(t) + after);
    SpellingHead(t);
    assert body[0] == Spelling(t)[0];
    ObjectHead(t);
  }

  lemma NoBlankHead(before: Text, rest: Text)
    requires Blank(before) && before + rest != [] && (before + rest)[0] == LBRACE
    ensures before == []
  {
  }

  /** Only an object is spelled with a brace in front. */
  lemma ObjectHead(t: Tree)
    requires Formed(t) && Spelling(t) != [] && Spelling(t)[0] == LBRACE
    ensures t.TObj?
  {
    if t.TNum? {
      NumeralHead(t.m);
    }
  }

  // ----- which code units a canonical text contains -----

  /** The unit occurs in a string or a key of the value. */
  predicate Mentions(v: Json, x: CodeUnit) {
    match v
    case Str(s) => x in s
    case Arr(items) => exists i :: 0 <= i < |items| && Mentions(items[i], x)
    case Obj(ms) => exists i :: 0 <= i < |ms| && (x in ms[i].key || Mentions(ms[i].value, x))
    case _ => false
  }

  /** The three units an envelope body must not contain. */
  predicate Banned(x: CodeUnit) {
    x == LINE_FEED || x == CARRIAGE_RETURN || x == BYTE_ORDER_MARK
  }

  lemma {:induction false} BannedInEscape(s: Text, x: CodeUnit)
    requires Banned(x)
    ensures x in EscapeAll(s) <==> x == BYTE_ORDER_MARK && x in s
    decreases |s|
  {
    if s != [] {
      BannedInEscape(s[1..], x);
      assert x in Escape(s[0]) <==> x == BYTE_ORDER_MARK && x == s[0] by {
        if ShortEscape(s[0]).None? && s[0] < 0x20 {
          assert Escape(s[0]) == [BACKSLASH, 0x75, 0x30, 0x30, HexDigit(s[0] / 16), HexDigit(s[0] % 16)];
        }
      }
      assert s == [s[0]] + s[1..];
    }
  }

  lemma BannedInString(s: Text, x: CodeUnit)
    requires Banned(x)
    ensures x in StringSpelling(CanonicalChars(s)) <==> x == BYTE_ORDER_MARK && x in s
  {
    CanonicalString(s);
    BannedInEscape(s, x);
  }

  predicate Numeric(s: Text) {
    forall i :: 0 <= i < |s| ==> 0x2B <= s[i] <= 0x65
  }

  lemma NumericJoin(a: Text, b: Text)
    requires Numeric(a) && Numeric(b)
    ensures Numeric(a + b)
  {
  }

  lemma BannedInNumeral(m: Numeral, x: CodeUnit)
    requires Banned(x) && m.WellFormed()
    ensures x !in m.Lexeme()
  {
    assert Numeric(m.WholeLexeme()) && Numeric(m.FractionLexeme());
    if m.exponent.Some? {
      var e := m.exponent.value;
      assert Numeric([e.letter] + if e.sign.Some? then [e.sign.value] else []);
      NumericJoin([e.letter] + (if e.sign.Some? then [e.sign.value] else []), e.digits);
    }
    NumericJoin(m.WholeLexeme(), m.FractionLexeme());
    NumericJoin(m.WholeLexeme() + m.FractionLexeme(), m.ExponentLexeme());
  }

  lemma {:induction false} BannedInTree(v: Json, x: CodeUnit, prints: Numeral -> bool)
    requires Banned(x) && ValueClean(v, prints)
    ensures x in Spelling(CanonicalTree(v)) <==> x == BYTE_ORDER_MARK && Mentions(v, x)
    decreases v, 1
  {
    hide EscapeAll, StringSpelling, CanonicalChars, ElemsSpelling, CanonicalElems, ItemsClean, FieldsSpelling,
      CanonicalFields, MembersClean, PrintInteger;
    match v {
      case Num(Integer(n)) => BannedInNumeral(OfInteger(n), x);
      case Num(Real(m)) => BannedInNumeral(m, x);
      case Str(s) => BannedInString(s, x);
      case Arr(items) => BannedInElems(items, x, prints);
      case Obj(ms) => BannedInFields(ms, x, prints);
      case _ =>
    }
  }

  lemma {:induction false} BannedInElems(items: seq<Json>, x: CodeUnit, prints: Numeral -> bool)
    requires Banned(x) && ItemsClean(items, prints)
    ensures x in ElemsSpelling(CanonicalElems(items)) <==>
            x == BYTE_ORDER_MARK && exists i :: 0 <= i < |items| && Mentions(items[i], x)
    decreases items, 0
  {
    hide Mentions, Spelling, CanonicalTree, ValueClean;
    if items != [] {
      BannedInTree(items[0], x, prints);
      BannedInElems(items[1..], x, prints);
      assert forall i :: 0 <= i < |items| ==> items[i] == if i == 0 then items[0] else items[1..][i - 1];
      assert forall i :: 0 <= i < |items[1..]| ==> items[1..][i] == items[i + 1];
    }
  }

  lemma {:induction false} BannedInFields(ms: seq<Member>, x: CodeUnit, prints: Numeral -> bool)
    requires Banned(x) && MembersClean(ms, prints)
    ensures x in FieldsSpelling(CanonicalFields(ms)) <==>
            x == BYTE_ORDER_MARK && exists i :: 0 <= i < |ms| && (x in ms[i].key || Mentions(ms[i].value, x))
    decreases ms, 0
  {
    hide Mentions, Spelling, StringSpelling, CanonicalTree, CanonicalChars, ValueClean, Reserved, WellPaired;
    if ms != [] {
      BannedInString(ms[0].key, x);
      BannedInTree(ms[0].value, x, prints);
      BannedInFields(ms[1..], x, prints);
      assert forall i :: 0 <= i < |ms| ==> ms[i] == if i == 0 then ms[0] else ms[1..][i - 1];
      assert forall i :: 0 <= i < |ms[1..]| ==> ms[1..][i] == ms[i + 1];
    }
  }

  predicate MemberMentions(m: Member, x: CodeUnit) {
    x in m.key || Mentions(m.value, x)
  }

  lemma {:induction false} NormalizeMentions(v: Json, x: CodeUnit)
    ensures Mentions(Normalize(v), x) <==> Mentions(v, x)
    decreases v, 1
  {
    match v {
      case Arr(items) =>
        forall i | 0 <= i < |items|
          ensures Mentions(Normalize(items[i]), x) <==> Mentions(items[i], x)
        {
          NormalizeMentions(items[i], x);
        }
      case Obj(ms) => NormalizeObjectMentions(v, x);
      case _ =>
    }
  }

  lemma NormalizeObjectMentions(v: Json, x: CodeUnit)
    requires v.Obj?
    ensures Mentions(Normalize(v), x) <==> Mentions(v, x)
    decreases v, 0
  {
    var ms := v.members;
    var ns := NormalizeMembers(ms);
    SameElements(Sort(ns), ns);
    forall i | 0 <= i < |ms|
      ensures MemberMentions(ns[i], x) <==> MemberMentions(ms[i], x)
    {
      NormalizeMentions(ms[i].value, x);
    }
    MentionsByMember(ms, x);
    MentionsByMember(Sort(ns), x);
    assert forall i :: 0 <= i < |ns| ==> ns[i] in Sort(ns);
    assert forall m | m in Sort(ns) :: exists i :: 0 <= i < |ns| && ns[i] == m;
  }

  lemma MentionsByMember(ms: seq<Member>, x: CodeUnit)
    ensures Mentions(Obj(ms), x) <==> exists m | m in ms :: MemberMentions(m, x)
  {
    if Mentions(Obj(ms), x) {
      var i :| 0 <= i < |ms| && (x in ms[i].key || Mentions(ms[i].value, x));
      assert MemberMentions(ms[i], x);
    }
  }

  /**
    A canonical object, framed, is unwrapped to itself up to key order exactly when it fits the
    byte limit and no string or key in it contains U+FEFF, which canonical text leaves
    unescaped and the parser refuses.
   */
  lemma FramedUnwraps(v: Json, prints: Numeral -> bool)
    requires v.Obj? && Plain(v) && CanonicalText(v, prints).Ok?
    ensures var text := Frame(CanonicalText(v, prints).value);
            var parsed := Unwrap(text, prints);
            && (parsed.Ok? <==> Utf8Length(text) <= MAX_ENVELOPE_BYTES && !Mentions(v, BYTE_ORDER_MARK))
            && (parsed.Ok? ==> Plain(parsed.value) && SameJson(v, parsed.value))
            && (parsed.Err? ==> parsed.error == if Utf8Length(text) > MAX_ENVELOPE_BYTES then TooLarge else BadEnvelope)
  {
    hide Utf8Length, Mentions, Inspect, Spelling, CanonicalTree, ValueClean, Plain, SameJson, Normalize, CanonicalText,
      Canonical, Meaning, Formed, ValueDepth, ValueNodes, Depth;
    var body := CanonicalText(v, prints).value;
    var text := Frame(body);
    assert text[..|PREFIX|] == PREFIX && text[|text| - |SUFFIX|..] == SUFFIX;
    assert Between(text) == body;
    CanonicalIffAcceptable(v, prints);
    NormalizeMeasures(v, prints);
    NormalizeMentions(v, BYTE_ORDER_MARK);
    BannedInTree(Normalize(v), LINE_FEED, prints);
    BannedInTree(Normalize(v), CARRIAGE_RETURN, prints);
    BannedInTree(Normalize(v), BYTE_ORDER_MARK, prints);
    ObjectEnds(v);
    RoundTrip(v, prints);
  }

  lemma ObjectEnds(v: Json)
    requires v.Obj?
    ensures var s := Spelling(CanonicalTree(Normalize(v)));
            s != [] && s[0] == LBRACE && s[|s| - 1] == RBRACE
  {
    hide FieldsSpelling, Sort, NormalizeMembers, CanonicalFields;
    FieldsEnd(CanonicalFields(Sort(NormalizeMembers(v.members))));
  }

  lemma {:induction false} FieldsEnd(fs: Fields)
    ensures FieldsSpelling(fs) != [] && FieldsSpelling(fs)[|FieldsSpelling(fs)| - 1] == RBRACE
  {
    hide StringSpelling, Spelling;
    if fs.Field? && fs.rest.Field? {
      FieldsEnd(fs.rest);
    }
  }

  lemma {:induction false} Utf8Bound(s: Text)
    ensures Utf8Length(s) <= 3 * |s|
    decreases |s|
  {
    if s != [] {
      Utf8Bound(s[1..]);
      if 1 < |s| {
        Utf8Bound(s[2..]);
      }
    }
  }
}
