/**
  The strict server boundary behind the projection: it reads the projected request back from
  its canonical text, and admits a continuation only if everything but the last exchange is
  the initial request and the call is the committed one.
 */
module ResponsesServer {
  import opened Results
  import opened Utf16
  import opened Numerals
  import opened JsonValue
  import opened Canonicalizer
  import opened JsonGrammar
  import opened JsonScan
  import opened JsonLanguage
  import opened JsonRoundTrip
  import opened StrictScanner
  import opened ToolSchema
  import opened CodexContract
  import Envelope

  const MAX_PREFIX_BYTES := 256 * 1024
  const MAX_EMITTED_CALLS := 4096

  const INCLUDE := Ascii("include")
  const INPUT := Ascii("input")
  const INSTRUCTIONS := Ascii("instructions")
  const MODEL := Ascii("model")
  const PARALLEL_TOOL_CALLS := Ascii("parallel_tool_calls")
  const REASONING := Ascii("reasoning")
  const STORE := Ascii("store")
  const STREAM := Ascii("stream")
  const TOOL_CHOICE := Ascii("tool_choice")
  const TOOLS := Ascii("tools")
  const EFFORT := Ascii("effort")
  const AUTO := Ascii("auto")

  /** The request fields that are not fixed. */
  datatype Fields = Fields(instructions: Option<Text>, model: Text, effort: Text, stream: bool)

  /** An admitted initial request: its canonical text and how many input items it has. */
  datatype Initial = Initial(prefix: Text, inputLength: nat)

  /**
    What the boundary asks of a request besides its input and of the input's messages, as
    predicates: allowed keys, bounded scalars, its own tools.
   */
  datatype Profile = Profile(fieldsFit: Json -> bool, messagesFit: seq<Json> -> bool)

  // ----- the projected request -----

  function Tail(f: Fields, tools: Json): seq<Member> {
    [Member(MODEL, Str(f.model)), Member(PARALLEL_TOOL_CALLS, Bool(false)),
     Member(REASONING, Obj([Member(EFFORT, Str(f.effort))])), Member(STORE, Bool(false)),
       Member(STREAM, Bool(f.stream)),
     Member(TOOL_CHOICE, Str(AUTO)), Member(TOOLS, tools)]
  }

  function Instructions(f: Fields): seq<Member> {
    if f.instructions.Some? then [Member(INSTRUCTIONS, Str(f.instructions.value))] else []
  }

  /** `createProjection`. */
  function Body(f: Fields, input: seq<Json>, tools: Json): Json {
    Obj([Member(INCLUDE, Arr([])), Member(INPUT, Arr(input))] + (Instructions(f) + Tail(f, tools)))
  }

  /** The input of a continuation: the messages and the latest exchange. */
  function ContinuationInput(messages: seq<Message>, last: Exchange): seq<Json> {
    MessagesJson(messages) + [CallJson(last.call), OutputJson(last.output)]
  }

  // ----- the boundary -----

  /** `parseStrictJsonObject`. */
  function ParseStrict(text: Text, prints: Numeral -> bool): Option<Json> {
    var read := Inspect(text, prints);
    if text == [] || Envelope.Utf8Length(text) > MAX_REQUEST_BYTES || read.Stop? then None
    else if Formed(read.piece) && Meaning(read.piece).Obj? then Some(Meaning(read.piece))
    else None
  }

  /**
    The two scanners accept one language: the boundary, with its own, parses exactly the
    admissible object texts within its size, each to the object it spells, and the
    canonicalization that follows never refuses what was parsed.
   */
  lemma StrictIffAdmissible(text: Text, prints: Numeral -> bool)
    ensures ParseStrict(text, prints).Some? <==>
            Envelope.Utf8Length(text) <= MAX_REQUEST_BYTES &&
            exists before, t, after :: Spells(text, before, t, after) && Admissible(t, prints) && t.TObj?
    ensures forall before, t, after :: Spells(text, before, t, after) && ParseStrict(text, prints).Some? ==>
              ParseStrict(text, prints) == Some(Meaning(t))
    ensures ParseStrict(text, prints).Some? ==> CanonicalText(ParseStrict(text, prints).value, prints).Ok?
  {
    hide Inspect, CanonicalText, Formed, Meaning, Spelling, Admissible;
    var read := Inspect(text, prints);
    if read.Found? {
      var before, after := InspectFound(text, prints);
      ScannedIsCanonicalizable(text, prints);
      MeaningKind(read.piece);
      assert Spells(text, before, read.piece, after);
      forall b, t, a | Spells(text, b, t, a)
        ensures t == read.piece
      {
        AdmissibleUnique(text, before, read.piece, after, b, t, a, prints);
      }
      if read.piece.TObj? {
        assert Spells(text, before, read.piece, after) && Admissible(read.piece, prints) && read.piece.TObj?;
      }
    } else {
      forall b, t, a | Spells(text, b, t, a) && Admissible(t, prints)
        ensures false
      {
        AcceptsIffAdmissible(text, prints);
      }
    }
    NonEmptySpelling(text);
  }

  lemma MeaningKind(t: Tree)
    requires Formed(t)
    ensures Meaning(t).Obj? <==> t.TObj?
  {
  }

  lemma NonEmptySpelling(text: Text)
    ensures forall before, t, after :: Spells(text, before, t, after) ==> text != []
  {
    hide Spelling;
    forall before, t, after | Spells(text, before, t, after)
      ensures text != []
    {
      SpellingHead(t);
    }
  }

  /** `parseStrictJsonObject`; what `JSON.parse` makes of an accepted text is the meaning of its syntax tree. */
  method ParseStrictJsonObject(text: Text, prints: Numeral -> bool) returns (r: Option<Json>)
    ensures r == ParseStrict(text, prints)
  {
    hide Inspect, CanonicalText, Formed, Meaning, Envelope.Utf8Length;
    if Envelope.Utf8Length(text) > MAX_REQUEST_BYTES || text == [] {
      return None;
    }
    var scanner := new StrictJsonScanner(text, prints);
    var ok := scanner.Inspect();
    if !ok {
      return None;
    }
    ScannedIsCanonicalizable(text, prints);
    var parsed := Meaning(Inspect(text, prints).piece);
    if !parsed.Obj? {
      return None;
    }
    var canonical := CanonicalizeToolWorkflowJson(parsed, prints);
    return if canonical.Ok? then Some(parsed) else None;
  }

  /** The parsed request and its input items. */
  datatype Parsed = Parsed(body: Json, input: seq<Json>)

  function ParseCommon(text: Text, profile: Profile, prints: Numeral -> bool): Option<Parsed> {
    var body := ParseStrict(text, prints);
    if body.None? || !profile.fieldsFit(body.value) then None
    else
      var input := Get(body.value, INPUT);
      if input.Some? && input.value.Arr? && 1 <= |input.value.items| <= MAX_INPUT_ITEMS + 2
      then Some(Parsed(body.value, input.value.items))
      else None
  }

  /** `admitInitialRequest`. */
  function AdmitInitial(text: Text, profile: Profile, prints: Numeral -> bool): Option<Initial> {
    var parsed := ParseCommon(text, profile, prints);
    if parsed.None? || !profile.messagesFit(parsed.value.input)
      || !FitsIn(Arr(parsed.value.input), MAX_INPUT_BYTES, prints)
    then None
    else
      var prefix := CanonicalText(parsed.value.body, prints);
      if prefix.Err? || Envelope.Utf8Length(prefix.value) > MAX_PREFIX_BYTES then None
      else Some(Initial(prefix.value, |parsed.value.input|))
  }

  /** `replaceInput`. */
  function ReplaceInput(ms: seq<Member>, input: seq<Json>): seq<Member> {
    if ms == [] then []
    else [if ms[0].key == INPUT then Member(INPUT, Arr(input)) else ms[0]] + ReplaceInput(ms[1..], input)
  }

  /** `parseFunctionCallItem`: exactly the keys of a completed call. */
  function ParseCallItem(v: Json): Option<Call> {
    var arguments, callId := GetText(v, ARGUMENTS), GetText(v, CALL_ID);
    var itemId, name := GetText(v, ID), GetText(v, NAME);
    if && v.Obj? && (forall m :: m in v.members ==> m.key in [ARGUMENTS, CALL_ID, ID, NAME, STATUS, TYPE])
       && IsText(v, TYPE, FUNCTION_CALL) && IsText(v, STATUS, COMPLETED)
       && arguments.Some? && callId.Some? && itemId.Some? && name.Some?
    then Some(Call(arguments.value, callId.value, itemId.value, name.value))
    else None
  }

  function ParseOutputItem(v: Json): Option<Output> {
    var callId, output := GetText(v, CALL_ID), GetText(v, OUTPUT);
    if && v.Obj? && (forall m :: m in v.members ==> m.key in [CALL_ID, OUTPUT, TYPE])
       && IsText(v, TYPE, FUNCTION_CALL_OUTPUT) && callId.Some? && output.Some?
    then Some(Output(callId.value, output.value))
    else None
  }

  /** `admitContinuationRequest`, for an eligible committed call: the exchange admitted, if any. */
  function AdmitContinuation(text: Text, expected: Call, initial: Initial, profile: Profile, prints: Numeral -> bool):
    Option<Exchange>
  {
    var parsed := ParseCommon(text, profile, prints);
    if parsed.None? || |parsed.value.input| != initial.inputLength + 2 || !parsed.value.body.Obj? then None
    else
      var n := initial.inputLength;
      var prefix := ReplaceInput(parsed.value.body.members, parsed.value.input[..n]);
      if !profile.messagesFit(parsed.value.input[..n]) || CanonicalText(Obj(prefix), prints) != Ok(initial.prefix)
        then None
      else AdmitExchange(parsed.value.input[n], parsed.value.input[n + 1], expected, prints)
  }

  function AdmitExchange(callItem: Json, outputItem: Json, expected: Call, prints: Numeral -> bool): Option<Exchange> {
    var call, output := ParseCallItem(callItem), ParseOutputItem(outputItem);
    if || call.None? || output.None? || !SameText(CallJson(call.value), CallJson(expected), prints)
       || output.value.callId != expected.callId || Envelope.Utf8Length(output.value.output) > MAX_RESULT_BYTES
    then None
    else Some(Exchange(call.value, output.value))
  }

  // ----- reading a projected request back -----

  /** Each key is told from the others by a few of its letters. */
  lemma KeyLetters()
    ensures |INCLUDE| == 7 && INCLUDE[0] == 0x69 && INCLUDE[2] == 0x63
    ensures |INPUT| == 5 && INPUT[0] == 0x69 && INPUT[2] == 0x70
    ensures |INSTRUCTIONS| == 12 && INSTRUCTIONS[0] == 0x69 && INSTRUCTIONS[2] == 0x73
    ensures MODEL != [] && MODEL[0] == 0x6D && PARALLEL_TOOL_CALLS != [] && PARALLEL_TOOL_CALLS[0] == 0x70
    ensures REASONING != [] && REASONING[0] == 0x72
    ensures |STORE| == 5 && STORE[0] == 0x73 && |STREAM| == 6 && STREAM[0] == 0x73
    ensures |TOOL_CHOICE| == 11 && TOOL_CHOICE[0] == 0x74 && |TOOLS| == 5 && TOOLS[0] == 0x74
  {
  }

  lemma BodyKeys(f: Fields, input: seq<Json>, tools: Json)
    ensures Body(f, input, tools).Obj? && DistinctKeys(Body(f, input, tools).members)
  {
    hide INCLUDE, INPUT, INSTRUCTIONS, MODEL, PARALLEL_TOOL_CALLS, REASONING, STORE, STREAM, TOOL_CHOICE, TOOLS, Ascii;
    KeyLetters();
  }

  lemma {:induction false} LookupReplaced(ms: seq<Member>, input: seq<Json>, key: Text)
    ensures |ReplaceInput(ms, input)| == |ms|
    ensures Lookup(ReplaceInput(ms, input), key) ==
            if key == INPUT && Lookup(ms, key).Some? then Some(Arr(input)) else Lookup(ms, key)
  {
    hide INPUT;
    if ms != [] {
      LookupReplaced(ms[1..], input, key);
      assert ReplaceInput(ms, input)[1..] == ReplaceInput(ms[1..], input);
    }
  }

  lemma Transitive(a: Json, b: Json, c: Json)
    requires Plain(a) && Plain(b) && Plain(c) && SameJson(a, b) && SameJson(b, c)
    ensures SameJson(a, c)
  {
    hide SameJson, Plain, Normalize;
    SameIffNormalized(a, b);
    SameIffNormalized(b, c);
    SameIffNormalized(a, c);
  }

  lemma ReplacedSame(v: Json, w: Json, a: seq<Json>, b: seq<Json>, i: nat)
    requires v.Obj? && w.Obj? && Plain(v) && Plain(w) && SameJson(v, w) && SameJson(Arr(a), Arr(b)) && i < |v.members|
    ensures |ReplaceInput(v.members, a)| == |v.members|
    ensures var m := ReplaceInput(v.members, a)[i];
            var found := Lookup(ReplaceInput(w.members, b), m.key);
            found.Some? && SameJson(m.value, found.value)
  {
    hide Plain, ReplaceInput, INPUT, SameJson;
    ReplacedMember(v.members, a, i);
    var key := v.members[i].key;
    LookupReplaced(w.members, b, key);
    PlainObject(v);
    LookupAt(v.members, i);
    LookupSame(v, w, key);
  }

  lemma PlainObject(v: Json)
    requires v.Obj? && Plain(v)
    ensures DistinctKeys(v.members)
  {
  }

  lemma SameMembers(l: seq<Member>, r: seq<Member>)
    requires |l| == |r|
    requires forall i :: 0 <= i < |l| ==> Lookup(r, l[i].key).Some? && SameJson(l[i].value, Lookup(r, l[i].key).value)
    ensures SameJson(Obj(l), Obj(r))
  {
    hide Lookup;
  }

  /** Replacing the input of two objects equal up to key order by equal inputs keeps them so. */
  lemma ReplaceSame(v: Json, w: Json, a: seq<Json>, b: seq<Json>)
    requires v.Obj? && w.Obj? && Plain(v) && Plain(w) && SameJson(v, w) && SameJson(Arr(a), Arr(b))
    ensures SameJson(Obj(ReplaceInput(v.members, a)), Obj(ReplaceInput(w.members, b)))
  {
    hide Plain, ReplaceInput, INPUT, Lookup, SameJson;
    LookupReplaced(v.members, a, INPUT);
    LookupReplaced(w.members, b, INPUT);
    SameShape(v, w);
    var l, r := ReplaceInput(v.members, a), ReplaceInput(w.members, b);
    forall i | 0 <= i < |l|
      ensures Lookup(r, l[i].key).Some? && SameJson(l[i].value, Lookup(r, l[i].key).value)
    {
      ReplacedSame(v, w, a, b, i);
    }
    SameMembers(l, r);
  }

  lemma {:induction false} ReplacedMember(ms: seq<Member>, input: seq<Json>, i: nat)
    requires i < |ms|
    ensures |ReplaceInput(ms, input)| == |ms|
    ensures ReplaceInput(ms, input)[i] == if ms[i].key == INPUT then Member(INPUT, Arr(input)) else ms[i]
  {
    hide INPUT;
    LookupReplaced(ms, input, []);
    if i > 0 {
      ReplacedMember(ms[1..], input, i - 1);
    }
  }

  lemma {:induction false} ReplacePlain(ms: seq<Member>, input: seq<Json>)
    requires Plain(Obj(ms)) && Plain(Arr(input))
    ensures Plain(Obj(ReplaceInput(ms, input)))
  {
    hide ReplaceInput, INPUT;
    var r := ReplaceInput(ms, input);
    LookupReplaced(ms, input, []);
    forall i | 0 <= i < |ms| ensures r[i].key == ms[i].key && Plain(r[i].value) {
      ReplacedMember(ms, input, i);
      assert ms[i] in ms;
    }
    forall m | m in r ensures Plain(m.value) {
      var i :| 0 <= i < |r| && r[i] == m;
    }
  }

  lemma {:induction false} NothingReplaced(ms: seq<Member>, input: seq<Json>)
    requires forall m :: m in ms ==> m.key != INPUT
    ensures ReplaceInput(ms, input) == ms
  {
    hide INPUT;
    if ms != [] {
      assert ms[0] in ms;
      NothingReplaced(ms[1..], input);
    }
  }

  lemma SecondReplaced(first: Member, second: Member, rest: seq<Member>, input: seq<Json>)
    requires first.key != INPUT && second.key == INPUT && forall m :: m in rest ==> m.key != INPUT
    ensures ReplaceInput([first, second] + rest, input) == [first, Member(INPUT, Arr(input))] + rest
  {
    hide INPUT;
    var ms := [first, second] + rest;
    assert ms[1..] == [second] + rest && ([second] + rest)[1..] == rest;
    NothingReplaced(rest, input);
  }

  lemma RestKeys(f: Fields, tools: Json)
    ensures forall m :: m in Instructions(f) + Tail(f, tools) ==> m.key != INPUT
  {
    hide INCLUDE, INPUT, INSTRUCTIONS, MODEL, PARALLEL_TOOL_CALLS, REASONING, STORE, STREAM, TOOL_CHOICE, TOOLS, Ascii;
    KeyLetters();
  }

  /** The projected request with another input is the projected request of that input. */
  lemma ReplaceBody(f: Fields, input: seq<Json>, other: seq<Json>, tools: Json)
    ensures ReplaceInput(Body(f, input, tools).members, other) == Body(f, other, tools).members
  {
    hide INCLUDE, INPUT, Ascii, Tail, Instructions, ReplaceInput;
    KeyLetters();
    RestKeys(f, tools);
    SecondReplaced(Member(INCLUDE, Arr([])), Member(INPUT, Arr(input)), Instructions(f) + Tail(f, tools), other);
  }

  lemma ContentPlain(c: Content)
    ensures Plain(ContentJson(c))
  {
    if c.Parts? {
      forall i | 0 <= i < |c.texts| ensures Plain(ContentJson(c).items[i]) {
        KeysDistinct();
      }
      PlainArray(ContentJson(c).items);
    }
  }

  lemma MessageKeys(m: Message)
    ensures MessageJson(m).Obj? && DistinctKeys(MessageJson(m).members) && Plain(MessageJson(m))
  {
    KeysDistinct();
    ContentPlain(m.content);
  }

  lemma SameContent(c: Content, d: Content)
    requires SameJson(ContentJson(c), ContentJson(d))
    ensures c == d
  {
    if c.Parts? && d.Parts? {
      SameShape(ContentJson(c), ContentJson(d));
      forall i | 0 <= i < |c.texts| ensures c.texts[i] == d.texts[i] {
        hide SameJson;
        KeysDistinct();
        SameMember(ContentJson(c).items[i], ContentJson(d).items[i], 0);
        SameString(c.texts[i], d.texts[i]);
      }
    }
  }

  lemma SameMessage(m: Message, n: Message)
    requires SameJson(MessageJson(m), MessageJson(n))
    ensures m == n
  {
    hide SameJson;
    MessageKeys(n);
    SameShape(MessageJson(m), MessageJson(n));
    SameMember(MessageJson(m), MessageJson(n), 0);
    SameMember(MessageJson(m), MessageJson(n), 1);
    SameContent(m.content, n.content);
    SameString(if m.user then USER else DEVELOPER, if n.user then USER else DEVELOPER);
    KeysDistinct();
  }

  lemma SameMessages(ms: seq<Message>, ns: seq<Message>)
    requires SameJson(Arr(MessagesJson(ms)), Arr(MessagesJson(ns)))
    ensures ms == ns
  {
    hide SameJson, MessageJson;
    SameShape(Arr(MessagesJson(ms)), Arr(MessagesJson(ns)));
    forall i | 0 <= i < |ms| ensures ms[i] == ns[i] {
      assert SameJson(Arr(MessagesJson(ms)).items[i], Arr(MessagesJson(ns)).items[i]);
      SameMessage(ms[i], ns[i]);
    }
  }

  lemma MessagesPlain(ms: seq<Message>)
    ensures Plain(Arr(MessagesJson(ms)))
  {
    hide MessageJson, Plain;
    forall i | 0 <= i < |ms| ensures Plain(MessagesJson(ms)[i]) {
      MessageKeys(ms[i]);
    }
    PlainArray(MessagesJson(ms));
  }

  lemma RestPlain(f: Fields, tools: Json)
    requires Plain(tools)
    ensures forall m :: m in Instructions(f) + Tail(f, tools) ==> Plain(m.value)
  {
    assert forall m :: m in Instructions(f) ==> Plain(m.value);
    var tail := Tail(f, tools);
    forall i | 0 <= i < |tail| ensures Plain(tail[i].value) {
    }
  }

  lemma BodyPlain(f: Fields, input: seq<Json>, tools: Json)
    requires Plain(Arr(input)) && Plain(tools)
    ensures Plain(Body(f, input, tools))
  {
    hide INCLUDE, INPUT, Ascii, Tail, Instructions;
    BodyKeys(f, input, tools);
    RestPlain(f, tools);
    var ms := Body(f, input, tools).members;
    forall m | m in ms ensures Plain(m.value) {
      if m != ms[0] && m != ms[1] {
        assert m in ms[2..];
      }
    }
  }

  lemma SameFields(f: Fields, g: Fields, a: seq<Json>, b: seq<Json>, t: Json, u: Json)
    requires SameJson(Body(f, a, t), Body(g, b, u))
    ensures f == g && SameJson(Arr(a), Arr(b)) && SameJson(t, u)
  {
    hide INCLUDE, INPUT, INSTRUCTIONS, MODEL, PARALLEL_TOOL_CALLS, REASONING, STORE, STREAM, TOOL_CHOICE, TOOLS,
      EFFORT, AUTO,
      Ascii, SameJson;
    var left, right := Body(f, a, t), Body(g, b, u);
    BodyKeys(g, b, u);
    SameShape(left, right);
    SameMember(left, right, 1);
    var base := |left.members| - 7;
    if f.instructions.Some? {
      SameMember(left, right, 2);
      SameString(f.instructions.value, g.instructions.value);
    }
    SameMember(left, right, base);
    SameString(f.model, g.model);
    SameMember(left, right, base + 2);
    SameMember(Obj([Member(EFFORT, Str(f.effort))]), Obj([Member(EFFORT, Str(g.effort))]), 0);
    SameString(f.effort, g.effort);
    SameMember(left, right, base + 4);
    SameFlag(f.stream, g.stream);
    SameMember(left, right, base + 6);
  }

  lemma SameFlag(a: bool, b: bool)
    requires SameJson(Bool(a), Bool(b))
    ensures a == b
  {
  }

  /** What the boundary reads from a projected request is that request up to key order. */
  lemma ReadBack(f: Fields, input: seq<Json>, tools: Json, text: Text, profile: Profile, prints: Numeral -> bool)
    requires Plain(Arr(input)) && Plain(tools) && CanonicalText(Body(f, input, tools), prints) == Ok(text)
    requires ParseCommon(text, profile, prints).Some?
    ensures var p := ParseCommon(text, profile, prints).value;
            && p.body.Obj? && Plain(p.body) && SameJson(Body(f, input, tools), p.body)
            && Lookup(p.body.members, INPUT) == Some(Arr(p.input)) && SameJson(Arr(input), Arr(p.input))
            && CanonicalText(p.body, prints) == Ok(text)
  {
    hide Body, Plain, CanonicalText, SameJson, Inspect, Meaning, Formed, Envelope.Utf8Length;
    BodyPlain(f, input, tools);
    RoundTrip(Body(f, input, tools), prints);
    var p := ParseCommon(text, profile, prints).value;
    BodyInput(f, input, tools);
    LookupSame(Body(f, input, tools), p.body, INPUT);
  }

  lemma BodyInput(f: Fields, input: seq<Json>, tools: Json)
    ensures Body(f, input, tools).Obj? && Lookup(Body(f, input, tools).members, INPUT) == Some(Arr(input))
  {
    hide INCLUDE, INPUT, INSTRUCTIONS, MODEL, PARALLEL_TOOL_CALLS, REASONING, STORE, STREAM, TOOL_CHOICE, TOOLS, Ascii;
    BodyKeys(f, input, tools);
    LookupAt(Body(f, input, tools).members, 1);
  }

  lemma PlainSlice(items: seq<Json>, n: nat)
    requires Plain(Arr(items)) && n <= |items|
    ensures Plain(Arr(items[..n]))
  {
  }

  lemma SameSlice(a: seq<Json>, b: seq<Json>, n: nat)
    requires SameJson(Arr(a), Arr(b)) && n <= |a|
    ensures |a| == |b| && SameJson(Arr(a[..n]), Arr(b[..n]))
  {
  }

  /** Reading one text field of an object that has it at a known place. */
  lemma TextFieldSame(left: Json, right: Json, i: nat, text: Text)
    requires left.Obj? && right.Obj? && Plain(left) && Plain(right) && SameJson(left, right)
             && DistinctKeys(left.members)
    requires i < |left.members| && left.members[i].value == Str(text)
    ensures GetText(right, left.members[i].key) == Some(text)
  {
    hide SameJson, Plain;
    LookupAt(left.members, i);
    FoundSame(left, right, left.members[i].key);
    SameShape(Str(text), Lookup(right.members, left.members[i].key).value);
  }

  lemma ParsedCall(c: Call, v: Json)
    requires Plain(v) && SameJson(CallJson(c), v) && ParseCallItem(v).Some?
    ensures ParseCallItem(v).value == c
  {
    hide SameJson, Plain, Ascii, GetText;
    CallKeys(c);
    TextFieldSame(CallJson(c), v, 0, c.arguments);
    TextFieldSame(CallJson(c), v, 1, c.callId);
    TextFieldSame(CallJson(c), v, 2, c.itemId);
    TextFieldSame(CallJson(c), v, 3, c.name);
  }

  lemma ParsedOutput(o: Output, v: Json)
    requires Plain(v) && SameJson(OutputJson(o), v) && ParseOutputItem(v).Some?
    ensures ParseOutputItem(v).value == o
  {
    hide SameJson, Plain, Ascii, GetText;
    OutputKeys(o);
    TextFieldSame(OutputJson(o), v, 0, o.callId);
    TextFieldSame(OutputJson(o), v, 1, o.output);
  }

  lemma SameCallText(c: Call, d: Call, prints: Numeral -> bool)
    requires SameText(CallJson(c), CallJson(d), prints)
    ensures c == d
  {
    hide CanonicalText, SameJson, Plain, CallJson;
    CallKeys(c);
    CallKeys(d);
    CanonicalInjective(CallJson(c), CallJson(d), prints);
    SameCall(c, d);
  }

  lemma AdmittedExchange(last: Exchange, callItem: Json, outputItem: Json, expected: Call, prints: Numeral -> bool)
    requires Plain(callItem) && Plain(outputItem)
    requires SameJson(CallJson(last.call), callItem) && SameJson(OutputJson(last.output), outputItem)
    requires AdmitExchange(callItem, outputItem, expected, prints).Some?
    ensures last.call == expected && last.output.callId == expected.callId
    ensures AdmitExchange(callItem, outputItem, expected, prints) == Some(last)
  {
    hide CanonicalText, SameJson, Plain, CallJson, OutputJson, ParseCallItem, ParseOutputItem, Envelope.Utf8Length,
      SameText;
    ParsedCall(last.call, callItem);
    ParsedOutput(last.output, outputItem);
    SameCallText(last.call, expected, prints);
  }

  lemma InputPlain(messages: seq<Message>, last: Exchange)
    ensures Plain(Arr(ContinuationInput(messages, last)))
  {
    hide MessageJson, CallJson, OutputJson, Plain;
    var items := ContinuationInput(messages, last);
    forall i | 0 <= i < |items| ensures Plain(items[i]) {
      if i < |messages| {
        MessageKeys(messages[i]);
      }
      CallKeys(last.call);
      OutputKeys(last.output);
    }
    PlainArray(items);
  }

  /** Replacing the input read back by its messages gives the initial request read back. */
  lemma SameRequest(f: Fields, messages: seq<Message>, last: Exchange, tools: Json, p: Parsed, f0: Fields,
                    messages0: seq<Message>, tools0: Json, p0: Parsed, n: nat, prints: Numeral -> bool)
    requires Plain(tools) && Plain(tools0) && p.body.Obj? && Plain(p.body) && Plain(p0.body) && n == |messages|
    requires SameJson(Body(f, ContinuationInput(messages, last), tools), p.body)
    requires SameJson(Arr(ContinuationInput(messages, last)), Arr(p.input)) && Plain(Arr(p.input)) && n <= |p.input|
    requires SameJson(Body(f0, MessagesJson(messages0), tools0), p0.body)
    requires SameText(p0.body, Obj(ReplaceInput(p.body.members, p.input[..n])), prints)
    ensures f == f0 && messages == messages0 && SameJson(tools, tools0)
  {
    hide Body, Plain, CanonicalText, SameJson, ReplaceInput, MessageJson, CallJson, OutputJson;
    var input, mine := ContinuationInput(messages, last), MessagesJson(messages);
    assert input[..n] == mine;
    SameSlice(input, p.input, n);
    InputPlain(messages, last);
    MessagesPlain(messages);
    MessagesPlain(messages0);
    BodyPlain(f, input, tools);
    BodyPlain(f, mine, tools);
    BodyPlain(f0, MessagesJson(messages0), tools0);
    BodyInput(f, input, tools);
    BodyInput(f, mine, tools);
    ReplaceSame(Body(f, input, tools), p.body, mine, p.input[..n]);
    ReplaceBody(f, input, mine, tools);
    var q := Obj(ReplaceInput(p.body.members, p.input[..n]));
    PlainSlice(p.input, n);
    ObjectOf(p.body);
    ReplacePlain(p.body.members, p.input[..n]);
    CanonicalInjective(q, p0.body, prints);
    Symmetric(Body(f0, MessagesJson(messages0), tools0), p0.body);
    ObjectOf(Body(f, mine, tools));
    Transitive(Body(f, mine, tools), q, p0.body);
    Transitive(Body(f, mine, tools), p0.body, Body(f0, MessagesJson(messages0), tools0));
    SameFields(f, f0, mine, MessagesJson(messages0), tools, tools0);
    SameMessages(messages, messages0);
  }

  lemma ObjectOf(v: Json)
    requires v.Obj?
    ensures v == Obj(v.members)
  {
  }

  /**
    A continuation the boundary admits differs from the initial request in its last exchange
    alone, and there it holds the committed call and an output for it.
   */
  lemma ContinuationBound(f: Fields, messages: seq<Message>, last: Exchange, tools: Json, text: Text, f0: Fields,
                          messages0: seq<Message>, tools0: Json, text0: Text, expected: Call, initial: Initial,
                          profile: Profile, prints: Numeral -> bool)
    requires Plain(tools) && Plain(tools0)
    requires CanonicalText(Body(f0, MessagesJson(messages0), tools0), prints) == Ok(text0)
    requires AdmitInitial(text0, profile, prints) == Some(initial)
    requires CanonicalText(Body(f, ContinuationInput(messages, last), tools), prints) == Ok(text)
    requires AdmitContinuation(text, expected, initial, profile, prints).Some?
    ensures f == f0 && messages == messages0 && SameJson(tools, tools0) && last.call == expected
    ensures last.output.callId == expected.callId
    ensures AdmitContinuation(text, expected, initial, profile, prints) == Some(last)
  {
    hide Body, Plain, CanonicalText, SameJson, ReplaceInput, MessageJson, CallJson, OutputJson, ParseCommon,
      AdmitExchange, FitsIn, Envelope.Utf8Length;
    var input := ContinuationInput(messages, last);
    InputPlain(messages, last);
    MessagesPlain(messages0);
    ReadBack(f, input, tools, text, profile, prints);
    ReadBack(f0, MessagesJson(messages0), tools0, text0, profile, prints);
    var p, p0 := ParseCommon(text, profile, prints).value, ParseCommon(text0, profile, prints).value;
    var n := |messages0|;
    SameShape(Arr(input), Arr(p.input));
    SameShape(Arr(MessagesJson(messages0)), Arr(p0.input));
    InputOf(p);
    PlainItem(Arr(p.input), n);
    PlainItem(Arr(p.input), n + 1);
    SameRequest(f, messages, last, tools, p, f0, messages0, tools0, p0, n, prints);
    assert SameJson(Arr(input).items[n], Arr(p.input).items[n])
      && SameJson(Arr(input).items[n + 1], Arr(p.input).items[n + 1]);
    AdmittedExchange(last, p.input[n], p.input[n + 1], expected, prints);
  }

  lemma InputOf(p: Parsed)
    requires p.body.Obj? && Plain(p.body) && Lookup(p.body.members, INPUT) == Some(Arr(p.input))
    ensures Plain(Arr(p.input))
  {
    assert Member(INPUT, Arr(p.input)) in p.body.members;
    assert Plain(Member(INPUT, Arr(p.input)).value);
  }

  // ----- the boundary object -----

  /** A committed call: the item it becomes, and the arguments the item re-encodes. */
  datatype Committed = Committed(call: Call, arguments: Json)

  /** `parseCommittedCall`. */
  predicate ValidCommitted(c: Committed, tools: seq<Tool>, a: Arithmetic) {
    var tool := FindTool(tools, c.call.name);
    && IsCallId(c.call.callId) && Opaque(Ascii("fc_"), c.call.itemId) && c.arguments.Obj?
    && CanonicalText(c.arguments, a.prints) == Ok(c.call.arguments)
    && Envelope.Utf8Length(c.call.arguments) <= MAX_ARGUMENT_BYTES
    && tool.Some? && MatchesArguments(tool.value.parameters, c.arguments, a)
  }

  class ResponsesServerV2 {
    const tools: seq<Tool>
    const profile: Profile
    const a: Arithmetic
    var emitted: set<Text>
    var eligible: set<Text>

    ghost predicate Valid()
      reads this
    {
      eligible <= emitted && |emitted| <= MAX_EMITTED_CALLS
    }

    constructor (tools: seq<Tool>, profile: Profile, a: Arithmetic)
      ensures Valid() && emitted == {} && eligible == {}
      ensures this.tools == tools && this.profile == profile && this.a == a
    {
      this.tools, this.profile, this.a := tools, profile, a;
      emitted, eligible := {}, {};
    }

    /** A valid call's eligibility is used up by the first attempt, whatever becomes of it. */
    method AdmitContinuationRequest(text: Text, committed: Committed, initial: Initial, current: bool)
      returns (r: Option<Exchange>)
      requires Valid()
      modifies this`eligible
      ensures Valid()
      ensures eligible == if ValidCommitted(committed, tools, a) then old(eligible) - {committed.call.callId}
              else old(eligible)
      ensures r == if ValidCommitted(committed, tools, a) && committed.call.callId in old(eligible) && current
                   then AdmitContinuation(text, committed.call, initial, profile, a.prints) else None
    {
      hide AdmitContinuation, ValidCommitted;
      if !ValidCommitted(committed, tools, a) {
        return None;
      }
      var known := committed.call.callId in eligible;
      eligible := eligible - {committed.call.callId};
      if !known || !current {
        return None;
      }
      return AdmitContinuation(text, committed.call, initial, profile, a.prints);
    }

    /** A call is emitted in one lifecycle at most; it is spent before its identity can fail. */
    method CreateToolCallLifecycle(committed: Committed, current: bool, identity: bool) returns (created: bool)
      requires Valid()
      modifies this
      ensures Valid()
      ensures var callId := committed.call.callId;
              var spent := && current && ValidCommitted(committed, tools, a) && callId !in old(emitted)
                           && |old(emitted)| < MAX_EMITTED_CALLS;
              && created == (spent && identity)
              && emitted == (if spent then old(emitted) + {callId} else old(emitted))
              && eligible == (if created then old(eligible) + {callId} else old(eligible))
    {
      hide ValidCommitted;
      if !current || !ValidCommitted(committed, tools, a) {
        return false;
      }
      var callId := committed.call.callId;
      if callId in emitted || |emitted| >= MAX_EMITTED_CALLS {
        return false;
      }
      emitted := emitted + {callId};
      if !identity {
        return false;
      }
      eligible := eligible + {callId};
      return true;
    }
  }
}
