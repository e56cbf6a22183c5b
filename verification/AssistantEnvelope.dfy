/**
  The assistant's envelope: the object between the two marker lines is a tool call or a final
  text of the protocol, within the limits for arguments and texts.
 */
module AssistantEnvelope {
  import opened Results
  import opened Utf16
  import opened Numerals
  import opened JsonValue
  import opened Canonicalizer
  import opened JsonGrammar
  import opened JsonRoundTrip
  import opened Envelope
  import opened ToolSchema

  const MAX_ARGUMENT_BYTES := 64 * 1024
  const MAX_FINAL_TEXT_BYTES := 192 * 1024
  const VERSION := 2
  const MAX_CALLS := 32

  const ARGUMENTS := Ascii("arguments")
  const CHALLENGE := Ascii("challenge")
  const KIND := Ascii("kind")
  const DIGEST := Ascii("manifestDigest")
  const ROUND := Ascii("round")
  const TEXT := Ascii("text")
  const TOOL := Ascii("tool")
  const TURN := Ascii("turn")
  const V := Ascii("v")

  const TOOL_CALL := Ascii("tool_call")
  const FINAL := Ascii("final")
  const TOOL_RESULT := Ascii("tool_result")

  // ----- identifiers -----

  /** `[A-Za-z0-9_-]`. */
  predicate Url(c: CodeUnit) {
    0x30 <= c <= 0x39 || 0x41 <= c <= 0x5A || 0x61 <= c <= 0x7A || c == 0x2D || c == 0x5F
  }

  predicate AllUrl(s: Text) {
    forall i :: 0 <= i < |s| ==> Url(s[i])
  }

  predicate IsTurn(s: Text) {
    Ascii("wt_") <= s && 19 <= |s| <= 99 && AllUrl(s[3..])
  }

  predicate IsChallenge(s: Text) {
    |s| == 32 && AllUrl(s)
  }

  /** A base64url digest of 32 bytes: the two low bits of its last digit are zero. */
  predicate IsDigest(s: Text) {
    Ascii("sha256-") <= s && |s| == 50 && AllUrl(s[7..]) && s[49] in Ascii("AEIMQUYcgkosw048")
  }

  predicate IsTool(s: Text) {
    1 <= |s| <= 64 && AllUrl(s)
  }

  // ----- the schema -----

  predicate TextAt(v: Json, key: Text, accepts: Text -> bool)
    requires v.Obj?
  {
    var f := Lookup(v.members, key);
    f.Some? && f.value.Str? && accepts(f.value.s)
  }

  predicate CountAt(v: Json, key: Text, least: int, most: int)
    requires v.Obj?
  {
    var f := Lookup(v.members, key);
    f.Some? && f.value.Num? && f.value.number.Integer? && least <= f.value.number.n <= most
  }

  predicate Strict(v: Json, keys: set<Text>)
    requires v.Obj?
  {
    forall m | m in v.members :: m.key in keys
  }

  predicate Base(v: Json, kind: Text, rounds: int)
    requires v.Obj?
  {
    && CountAt(v, V, VERSION, VERSION) && TextAt(v, TURN, IsTurn) && TextAt(v, CHALLENGE, IsChallenge)
    && TextAt(v, DIGEST, IsDigest) && CountAt(v, ROUND, 0, rounds) && TextAt(v, KIND, s => s == kind)
  }

  /** `toolWorkflowCallEnvelopeSchema`. */
  predicate IsCall(v: Json, prints: Numeral -> bool) {
    && v.Obj? && Base(v, TOOL_CALL, MAX_CALLS - 1) && TextAt(v, TOOL, IsTool)
    && Strict(v, {V, TURN, CHALLENGE, DIGEST, ROUND, KIND, TOOL, ARGUMENTS})
    && var f := Lookup(v.members, ARGUMENTS);
       f.Some? && f.value.Obj? && CanonicalText(f.value, prints).Ok?
  }

  /** `toolWorkflowFinalEnvelopeSchema`. */
  predicate IsFinal(v: Json) {
    && v.Obj? && Base(v, FINAL, MAX_CALLS) && TextAt(v, TEXT, s => true)
    && Strict(v, {V, TURN, CHALLENGE, DIGEST, ROUND, KIND, TEXT})
  }

  /** `toolWorkflowAssistantEnvelopeSchema`. */
  predicate IsAssistant(v: Json, prints: Numeral -> bool) {
    IsCall(v, prints) || IsFinal(v)
  }

  function ArgumentBytes(v: Json, prints: Numeral -> bool): nat
    requires IsCall(v, prints)
  {
    Utf8Length(CanonicalText(Lookup(v.members, ARGUMENTS).value, prints).value)
  }

  function TextBytes(v: Json): nat
    requires IsFinal(v)
  {
    Utf8Length(Lookup(v.members, TEXT).value.s)
  }

  predicate WithinLimits(v: Json, prints: Numeral -> bool)
    requires IsAssistant(v, prints)
  {
    if IsCall(v, prints) then ArgumentBytes(v, prints) <= MAX_ARGUMENT_BYTES else TextBytes(v) <= MAX_FINAL_TEXT_BYTES
  }

  /** `parseToolWorkflowAssistantEnvelope`. */
  function Parse(text: Text, prints: Numeral -> bool): Result<Json, EnvelopeError> {
    var v :- Unwrap(text, prints);
    if !IsAssistant(v, prints) then Err(BadEnvelope)
    else if WithinLimits(v, prints) then Ok(v)
    else if IsCall(v, prints) then Err(ArgumentsTooLarge)
    else Err(FinalTextTooLarge)
  }

  // ----- key order does not matter to the schema -----

  lemma FieldSame(v: Json, w: Json, key: Text)
    requires v.Obj? && w.Obj? && Plain(v) && Plain(w) && SameJson(v, w)
    ensures forall accepts :: TextAt(v, key, accepts) <==> TextAt(w, key, accepts)
    ensures forall least, most :: CountAt(v, key, least, most) <==> CountAt(w, key, least, most)
  {
    hide Plain, SameJson;
    LookupSame(v, w, key);
    if Lookup(v.members, key).Some? {
      SameShape(Lookup(v.members, key).value, Lookup(w.members, key).value);
    }
  }

  lemma StrictSame(v: Json, w: Json, keys: set<Text>)
    requires v.Obj? && w.Obj? && Plain(v) && Plain(w) && SameJson(v, w)
    ensures Strict(v, keys) <==> Strict(w, keys)
  {
    hide Plain, SameJson;
    forall key ensures Lookup(v.members, key).Some? <==> Lookup(w.members, key).Some? {
      LookupSame(v, w, key);
    }
    forall m | m in v.members ensures exists n :: n in w.members && n.key == m.key {
      assert Lookup(v.members, m.key).Some?;
    }
    forall m | m in w.members ensures exists n :: n in v.members && n.key == m.key {
      assert Lookup(w.members, m.key).Some?;
    }
  }

  lemma BaseSame(v: Json, w: Json)
    requires v.Obj? && w.Obj? && Plain(v) && Plain(w) && SameJson(v, w)
    ensures forall kind, rounds :: Base(v, kind, rounds) <==> Base(w, kind, rounds)
  {
    hide Plain, SameJson, TextAt, CountAt, IsTurn, IsChallenge, IsDigest;
    FieldSame(v, w, V);
    FieldSame(v, w, TURN);
    FieldSame(v, w, CHALLENGE);
    FieldSame(v, w, DIGEST);
    FieldSame(v, w, ROUND);
    FieldSame(v, w, KIND);
  }

  lemma CallSame(v: Json, w: Json, prints: Numeral -> bool)
    requires Plain(v) && Plain(w) && SameJson(v, w)
    ensures IsCall(v, prints) <==> IsCall(w, prints)
    ensures IsCall(v, prints) ==> ArgumentBytes(v, prints) == ArgumentBytes(w, prints)
  {
    hide Plain, SameJson, TextAt, Base, Strict, CanonicalText, IsTool, Utf8Length;
    SameShape(v, w);
    if v.Obj? {
      BaseSame(v, w);
      FieldSame(v, w, TOOL);
      StrictSame(v, w, {V, TURN, CHALLENGE, DIGEST, ROUND, KIND, TOOL, ARGUMENTS});
      LookupSame(v, w, ARGUMENTS);
      var l, r := Lookup(v.members, ARGUMENTS), Lookup(w.members, ARGUMENTS);
      if l.Some? {
        SameShape(l.value, r.value);
        SameCanonical(l.value, r.value, prints);
      }
    }
  }

  lemma FinalSame(v: Json, w: Json)
    requires Plain(v) && Plain(w) && SameJson(v, w)
    ensures IsFinal(v) <==> IsFinal(w)
    ensures IsFinal(v) ==> TextBytes(v) == TextBytes(w)
  {
    hide Plain, SameJson, Base, Strict, Utf8Length;
    SameShape(v, w);
    if v.Obj? {
      BaseSame(v, w);
      FieldSame(v, w, TEXT);
      StrictSame(v, w, {V, TURN, CHALLENGE, DIGEST, ROUND, KIND, TEXT});
      LookupSame(v, w, TEXT);
      if Lookup(v.members, TEXT).Some? {
        SameShape(Lookup(v.members, TEXT).value, Lookup(w.members, TEXT).value);
      }
    }
  }

  lemma SchemaSame(v: Json, w: Json, prints: Numeral -> bool)
    requires Plain(v) && Plain(w) && SameJson(v, w)
    ensures IsAssistant(v, prints) <==> IsAssistant(w, prints)
    ensures IsAssistant(v, prints) ==> (WithinLimits(v, prints) <==> WithinLimits(w, prints))
  {
    hide IsCall, IsFinal, Plain, SameJson, ArgumentBytes, TextBytes;
    CallSame(v, w, prints);
    FinalSame(v, w);
  }

  // ----- which envelopes survive -----

  /**
    A canonical object, framed, is parsed to itself up to key order if and only if it is an
    assistant envelope within the limits, the frame fits its byte limit, and no string or key
    in it contains U+FEFF.
   */
  lemma FramedParses(v: Json, prints: Numeral -> bool)
    requires v.Obj? && Plain(v) && CanonicalText(v, prints).Ok?
    ensures var text := Frame(CanonicalText(v, prints).value);
            var parsed := Parse(text, prints);
            && (parsed.Ok? <==>
                  && Utf8Length(text) <= MAX_ENVELOPE_BYTES && !Mentions(v, BYTE_ORDER_MARK)
                  && IsAssistant(v, prints) && WithinLimits(v, prints))
            && (parsed.Ok? ==> SameJson(v, parsed.value))
  {
    hide Unwrap, Plain, SameJson, CanonicalText, Utf8Length, Mentions, Frame, IsCall, IsFinal, WithinLimits;
    FramedUnwraps(v, prints);
    var unwrapped := Unwrap(Frame(CanonicalText(v, prints).value), prints);
    if unwrapped.Ok? {
      SchemaSame(v, unwrapped.value, prints);
    }
  }

  /**
    Whatever is parsed can be printed, and its print, framed, is parsed again to the same value
    exactly when the frame fits and the value is without U+FEFF.
   */
  lemma ReprintParses(text: Text, prints: Numeral -> bool)
    requires Parse(text, prints).Ok?
    ensures var v := Parse(text, prints).value;
            && Plain(v) && IsAssistant(v, prints) && CanonicalText(v, prints).Ok?
            && var again := Frame(CanonicalText(v, prints).value);
               && (Parse(again, prints).Ok? <==>
                     Utf8Length(again) <= MAX_ENVELOPE_BYTES && !Mentions(v, BYTE_ORDER_MARK))
               && (Parse(again, prints).Ok? ==> SameJson(v, Parse(again, prints).value))
  {
    hide Unwrap, Plain, SameJson, CanonicalText, Utf8Length, Mentions, Frame, IsCall, IsFinal, WithinLimits;
    UnwrappedIsFramed(text, prints);
    FramedParses(Parse(text, prints).value, prints);
  }

  /** The envelopes the bridge itself frames, the results of tools, are none of the assistant's. */
  lemma ResultRefused(v: Json, prints: Numeral -> bool)
    requires v.Obj? && Plain(v) && CanonicalText(v, prints).Ok? && Lookup(v.members, KIND) == Some(Str(TOOL_RESULT))
    ensures Parse(Frame(CanonicalText(v, prints).value), prints).Err?
  {
    hide Unwrap, CanonicalText, Utf8Length, Mentions, Frame;
    FramedParses(v, prints);
    assert TOOL_RESULT[0] == 0x74 && TOOL_CALL[5] == 0x63 && TOOL_RESULT[5] == 0x72 && FINAL[0] == 0x66;
  }

  // ----- a final envelope with U+FEFF in its text -----

  function Repeat(c: CodeUnit, n: nat): (s: Text)
    ensures |s| == n && forall i :: 0 <= i < n ==> s[i] == c
  {
    seq<CodeUnit>(n, i => c)
  }

  /** A final envelope for a text, its members in canonical order. */
  function FinalMembers(text: Text): seq<Member> {
    [Member(CHALLENGE, Str(Repeat(0x41, 32))), Member(KIND, Str(FINAL)),
     Member(DIGEST, Str(Ascii("sha256-") + Repeat(0x41, 43))), Member(ROUND, Num(Integer(0))), Member(TEXT, Str(text)),
     Member(TURN, Str(Ascii("wt_") + Repeat(0x41, 16))), Member(V, Num(Integer(VERSION)))]
  }

  function FinalOf(text: Text): Json {
    Obj(FinalMembers(text))
  }

  /** Members that are neither arrays nor objects, with nothing the canonicalizer refuses. */
  predicate Flat(ms: seq<Member>, prints: Numeral -> bool) {
    forall m | m in ms :: !m.value.Arr? && !m.value.Obj? && MemberClean(m, prints)
  }

  lemma {:induction false} FlatMeasures(ms: seq<Member>, prints: Numeral -> bool)
    requires Flat(ms, prints)
    ensures MembersClean(ms, prints) && MembersNodes(ms) == |ms| && MembersDepth(ms) <= 1
    ensures NormalizeMembers(ms) == ms
    decreases |ms|
  {
    hide MemberClean;
    if ms != [] {
      FlatMeasures(ms[1..], prints);
    }
  }

  lemma SortedIsSort(ms: seq<Member>)
    requires Sorted(ms)
    ensures Sort(ms) == ms
  {
    SortedDistinct(ms);
    SortSorted(ms);
    SameElements(Sort(ms), ms);
    SortedUnique(Sort(ms), ms);
  }

  lemma {:induction false} EscapedLength(s: Text)
    ensures |EscapeAll(s)| <= 6 * |s|
  {
    if s != [] {
      EscapedLength(s[1..]);
    }
  }

  function Weight(m: Member): nat {
    6 * |m.key| + (if m.value.Str? then 6 * |m.value.s| else |Spelling(CanonicalTree(m.value))|) + 6
  }

  function WeightOf(ms: seq<Member>): nat {
    if ms == [] then 1 else Weight(ms[0]) + WeightOf(ms[1..])
  }

  lemma MemberLength(m: Member)
    ensures |StringSpelling(CanonicalChars(m.key))| + |Spelling(CanonicalTree(m.value))| + 2 <= Weight(m)
  {
    hide EscapeAll, CanonicalChars, CharsSpelling, StringSpelling;
    CanonicalString(m.key);
    EscapedLength(m.key);
    if m.value.Str? {
      CanonicalString(m.value.s);
      EscapedLength(m.value.s);
    }
  }

  lemma {:induction false} FieldsLength(ms: seq<Member>)
    ensures |FieldsSpelling(CanonicalFields(ms))| <= WeightOf(ms)
    decreases |ms|
  {
    hide Weight, StringSpelling, Spelling, CanonicalTree, CanonicalChars;
    if ms != [] {
      MemberLength(ms[0]);
      FieldsLength(ms[1..]);
    }
  }

  /** The canonical keys of a final envelope, told apart by a letter or two. */
  lemma KeyLetters()
    ensures |CHALLENGE| == 9 && CHALLENGE[0] == 0x63 && |KIND| == 4 && KIND[0] == 0x6B
    ensures |DIGEST| == 14 && DIGEST[0] == 0x6D && |ROUND| == 5 && ROUND[0] == 0x72
    ensures |TEXT| == 4 && TEXT[0] == 0x74 && TEXT[1] == 0x65 && |TURN| == 4 && TURN[0] == 0x74 && TURN[1] == 0x75
    ensures |V| == 1 && V[0] == 0x76
    ensures AllUrl(CHALLENGE) && AllUrl(KIND) && AllUrl(DIGEST) && AllUrl(ROUND) && AllUrl(TEXT) && AllUrl(TURN)
            && AllUrl(V)
  {
  }

  lemma FinalSorted(text: Text)
    ensures Sorted(FinalMembers(text)) && |FinalMembers(text)| == 7
  {
    hide AllUrl;
    KeyLetters();
    assert TEXT[1..][0] == TEXT[1] && TURN[1..][0] == TURN[1];
  }

  lemma LookupIs(ms: seq<Member>, i: nat)
    requires DistinctKeys(ms) && i < |ms|
    ensures Lookup(ms, ms[i].key) == Some(ms[i].value)
  {
    assert ms[i] in ms;
  }

  /** A key made of such letters is neither reserved nor ill-formed. */
  lemma CleanKey(key: Text)
    requires AllUrl(key) && key != [] && key[0] in {0x6B, 0x6D, 0x72, 0x74, 0x76}
    ensures !Reserved(key) && WellPaired(key)
  {
    assert Ascii("__proto__")[0] == 0x5F && Ascii("constructor")[0] == 0x63 && Ascii("prototype")[0] == 0x70;
  }

  lemma AllUrlPaired(s: Text)
    requires AllUrl(s)
    ensures WellPaired(s)
  {
  }

  lemma FinalFlat(text: Text, prints: Numeral -> bool)
    requires WellPaired(text)
    ensures Flat(FinalMembers(text), prints)
  {
    hide WellPaired, AllUrl, Reserved, Url;
    KeyLetters();
    CleanKey(KIND);
    CleanKey(DIGEST);
    CleanKey(ROUND);
    CleanKey(TEXT);
    CleanKey(TURN);
    CleanKey(V);
    ChallengeKey();
    FinalValues();
    var ms := FinalMembers(text);
    forall i | 0 <= i < 7
      ensures !ms[i].value.Arr? && !ms[i].value.Obj? && MemberClean(ms[i], prints)
    {
      assert ms[i].key in [CHALLENGE, KIND, DIGEST, ROUND, TEXT, TURN, V];
    }
  }

  lemma ChallengeKey()
    ensures !Reserved(CHALLENGE) && WellPaired(CHALLENGE)
  {
    assert |Ascii("constructor")| == 11 && Ascii("__proto__")[0] == 0x5F && Ascii("prototype")[0] == 0x70;
    KeyLetters();
    AllUrlPaired(CHALLENGE);
  }

  /** The fixed values fit their patterns. */
  lemma FinalValues()
    ensures IsChallenge(Repeat(0x41, 32)) && WellPaired(Repeat(0x41, 32)) && WellPaired(FINAL)
    ensures var digest := Ascii("sha256-") + Repeat(0x41, 43); IsDigest(digest) && WellPaired(digest)
    ensures var turn := Ascii("wt_") + Repeat(0x41, 16); IsTurn(turn) && WellPaired(turn)
  {
    var digest, turn := Ascii("sha256-") + Repeat(0x41, 43), Ascii("wt_") + Repeat(0x41, 16);
    assert digest[7..] == Repeat(0x41, 43) && turn[3..] == Repeat(0x41, 16);
    assert Ascii("AEIMQUYcgkosw048")[0] == 0x41;
  }

  /** It is what it should be: plain, a final envelope of the text, printable, and as long as the text makes it. */
  lemma FinalFacts(text: Text, prints: Numeral -> bool)
    requires WellPaired(text)
    ensures var v := FinalOf(text);
            && Plain(v) && IsFinal(v) && TextBytes(v) == Utf8Length(text) && CanonicalText(v, prints).Ok?
            && (Mentions(v, BYTE_ORDER_MARK) <==> BYTE_ORDER_MARK in text)
            && |CanonicalText(v, prints).value| <= 6 * |text| + 1200
  {
    FinalPlain(text);
    FinalSchema(text);
    FinalPrints(text, prints);
    FinalMentions(text);
  }

  lemma FinalPlain(text: Text)
    ensures Plain(FinalOf(text)) && DistinctKeys(FinalMembers(text))
  {
    FinalSorted(text);
    SortedDistinct(FinalMembers(text));
  }

  lemma FinalSchema(text: Text)
    ensures IsFinal(FinalOf(text)) && TextBytes(FinalOf(text)) == Utf8Length(text)
  {
    hide Plain, Lookup, IsTurn, IsChallenge, IsDigest, Utf8Length, WellPaired;
    var ms := FinalMembers(text);
    FinalPlain(text);
    FinalValues();
    forall i | 0 <= i < 7 ensures Lookup(ms, ms[i].key) == Some(ms[i].value) {
      LookupIs(ms, i);
    }
    assert ms[0].key == CHALLENGE && ms[1].key == KIND && ms[2].key == DIGEST && ms[3].key == ROUND;
    assert ms[4].key == TEXT && ms[5].key == TURN && ms[6].key == V;
  }

  lemma FinalPrints(text: Text, prints: Numeral -> bool)
    requires WellPaired(text)
    ensures CanonicalText(FinalOf(text), prints).Ok?
    ensures |CanonicalText(FinalOf(text), prints).value| <= 6 * |text| + 1200
  {
    hide Flat, FinalMembers, CanonicalText, Canonical, MembersClean, MembersNodes, MembersDepth, Spelling, WeightOf;
    var ms := FinalMembers(text);
    FinalFlat(text, prints);
    FlatMeasures(ms, prints);
    FinalSorted(text);
    SortedIsSort(ms);
    CanonicalIffAcceptable(FinalOf(text), prints);
    FieldsLength(ms);
    FinalWeight(text);
    ObjectLength(ms);
  }

  lemma ObjectLength(ms: seq<Member>)
    ensures |Spelling(CanonicalTree(Obj(ms)))| == 1 + |FieldsSpelling(CanonicalFields(ms))|
  {
    hide FieldsSpelling, CanonicalFields;
  }

  lemma WeightStep(ms: seq<Member>)
    ensures WeightOf(ms) == if ms == [] then 1 else Weight(ms[0]) + WeightOf(ms[1..])
  {
  }

  lemma TextWeight(key: Text, text: Text)
    ensures Weight(Member(key, Str(text))) == 6 * |key| + 6 * |text| + 6
  {
  }

  lemma DigitWeight(key: Text, n: nat)
    requires n < 10
    ensures Weight(Member(key, Num(Integer(n)))) == 6 * |key| + 7
  {
  }

  lemma FinalWeight(text: Text)
    ensures WeightOf(FinalMembers(text)) <= 6 * |text| + 1100
  {
    hide WeightOf, Weight, AllUrl;
    KeyLetters();
    var ms := FinalMembers(text);
    TextWeight(CHALLENGE, Repeat(0x41, 32));
    TextWeight(KIND, FINAL);
    TextWeight(DIGEST, Ascii("sha256-") + Repeat(0x41, 43));
    DigitWeight(ROUND, 0);
    TextWeight(TEXT, text);
    TextWeight(TURN, Ascii("wt_") + Repeat(0x41, 16));
    DigitWeight(V, VERSION);
    WeightStep(ms);
    WeightStep(ms[1..]);
    WeightStep(ms[2..]);
    WeightStep(ms[3..]);
    WeightStep(ms[4..]);
    WeightStep(ms[5..]);
    WeightStep(ms[6..]);
    WeightStep([]);
    assert ms[1..][1..] == ms[2..] && ms[2..][1..] == ms[3..] && ms[3..][1..] == ms[4..] && ms[4..][1..] == ms[5..];
    assert ms[5..][1..] == ms[6..] && ms[6..][1..] == [];
  }

  lemma FinalMentions(text: Text)
    ensures Mentions(FinalOf(text), BYTE_ORDER_MARK) <==> BYTE_ORDER_MARK in text
  {
    KeyLetters();
    FinalValues();
    var ms := FinalMembers(text);
    assert ms[4].value == Str(text);
  }

  /**
    The condition matters to final texts: of those short enough for every byte limit, exactly
    the ones without U+FEFF come back from their own envelope.
   */
  lemma FinalParses(text: Text, prints: Numeral -> bool)
    requires WellPaired(text) && |text| <= 10000
    ensures var v := FinalOf(text);
            && CanonicalText(v, prints).Ok?
            && (Parse(Frame(CanonicalText(v, prints).value), prints).Ok? <==> BYTE_ORDER_MARK !in text)
  {
    hide FinalOf, Plain, CanonicalText, Mentions, IsCall, IsFinal, Parse, WellPaired, Utf8Length;
    FinalFacts(text, prints);
    var v := FinalOf(text);
    var framed := Frame(CanonicalText(v, prints).value);
    FramedParses(v, prints);
    Utf8Bound(text);
    Utf8Bound(framed);
    NotCall(v, prints);
  }

  lemma NotCall(v: Json, prints: Numeral -> bool)
    requires IsFinal(v)
    ensures !IsCall(v, prints)
  {
    hide Strict, IsTurn, IsChallenge, IsDigest, IsTool, CanonicalText;
    assert TOOL_CALL[0] == 0x74 && FINAL[0] == 0x66;
  }

  /** The refusal is real: a final envelope whose text is U+FEFF is refused, the same one with an empty text parses. */
  lemma MarkedRefused(prints: Numeral -> bool)
    ensures var marked, plain := CanonicalText(FinalOf([BYTE_ORDER_MARK]), prints), CanonicalText(FinalOf([]), prints);
            && IsFinal(FinalOf([BYTE_ORDER_MARK])) && IsFinal(FinalOf([])) && marked.Ok? && plain.Ok?
            && Parse(Frame(marked.value), prints).Err? && Parse(Frame(plain.value), prints).Ok?
  {
    hide FinalOf, CanonicalText, IsFinal, Parse;
    FinalParses([BYTE_ORDER_MARK], prints);
    FinalParses([], prints);
    FinalFacts([BYTE_ORDER_MARK], prints);
    FinalFacts([], prints);
  }
}
