/**
  Projection of the requests the Codex child sends: messages, committed calls and their
  outputs.  Items arrive as JSON values; what is kept of them is a datatype whose JSON form
  has a fixed set of keys, so that equal canonical texts mean equal items.

  `sha` stands for the digest of a text, an injective function.
 */
module CodexContract {
  import opened Results
  import opened Utf16
  import opened Decimal
  import opened Numerals
  import opened JsonValue
  import opened Canonicalizer
  import opened JsonGrammar
  import opened JsonScan
  import opened JsonRoundTrip
  import opened ToolSchema
  import Envelope

  const MAX_INPUT_ITEMS := 64
  const MAX_TOOL_CALLS := 32
  const MAX_INPUT_BYTES := 128 * 1024
  const MAX_REQUEST_BYTES := 512 * 1024
  const MAX_ARGUMENT_BYTES := 64 * 1024
  const MAX_RESULT_BYTES := 128 * 1024

  datatype ContractError = RequestInvalid | ArgumentsInvalid | ContractDrift

  datatype Content = Whole(text: Text) | Parts(texts: seq<Text>)

  /** A developer or user message; `typed` if it says it is a message. */
  datatype Message = Message(content: Content, user: bool, typed: bool)

  datatype Call = Call(arguments: Text, callId: Text, itemId: Text, name: Text)

  datatype Output = Output(callId: Text, output: Text)

  /** A call and its output. */
  datatype Exchange = Exchange(call: Call, output: Output)

  datatype Tool = Tool(name: Text, parameters: Schema)

  // ----- keys and field access -----

  const ARGUMENTS := Ascii("arguments")
  const CALL_ID := Ascii("call_id")
  const CONTENT := Ascii("content")
  const ID := Ascii("id")
  const NAME := Ascii("name")
  const OUTPUT := Ascii("output")
  const ROLE := Ascii("role")
  const STATUS := Ascii("status")
  const TEXT := Ascii("text")
  const TYPE := Ascii("type")
  const USER := Ascii("user")
  const DEVELOPER := Ascii("developer")
  const MESSAGE := Ascii("message")
  const INPUT_TEXT := Ascii("input_text")
  const COMPLETED := Ascii("completed")
  const FUNCTION_CALL := Ascii("function_call")
  const FUNCTION_CALL_OUTPUT := Ascii("function_call_output")

  function Get(v: Json, key: Text): Option<Json> {
    if v.Obj? then Lookup(v.members, key) else None
  }

  function GetText(v: Json, key: Text): Option<Text> {
    var f := Get(v, key);
    if f.Some? && f.value.Str? then Some(f.value.s) else None
  }

  predicate IsText(v: Json, key: Text, text: Text) {
    Get(v, key) == Some(Str(text))
  }

  predicate Opaque(prefix: Text, s: Text) {
    && prefix <= s && 16 <= |s| - |prefix| <= 128
    && forall i :: |prefix| <= i < |s| ==>
         0x30 <= s[i] <= 0x39 || 0x41 <= s[i] <= 0x5A || 0x61 <= s[i] <= 0x7A || s[i] == 0x2D || s[i] == 0x5F
  }

  predicate IsCallId(s: Text) {
    Opaque(Ascii("call_"), s)
  }

  // ----- projections of one item -----

  function ProjectParts(items: seq<Json>): Option<seq<Text>> {
    if items == [] then Some([])
    else if !IsText(items[0], TYPE, INPUT_TEXT) || GetText(items[0], TEXT).None? then None
    else
      var rest := ProjectParts(items[1..]);
      if rest.None? then None else Some([GetText(items[0], TEXT).value] + rest.value)
  }

  function ProjectContent(v: Option<Json>): Option<Content> {
    if v.Some? && v.value.Str? then Some(Whole(v.value.s))
    else if v.Some? && v.value.Arr? && v.value.items != [] then
      var parts := ProjectParts(v.value.items);
      if parts.None? then None else Some(Parts(parts.value))
    else None
  }

  /** `projectMessage`. */
  function ProjectMessage(v: Json): Option<Message> {
    var content := ProjectContent(Get(v, CONTENT));
    if !IsText(v, ROLE, USER) && !IsText(v, ROLE, DEVELOPER) then None
    else if Get(v, TYPE).Some? && !IsText(v, TYPE, MESSAGE) then None
    else if content.None? then None
    else Some(Message(content.value, IsText(v, ROLE, USER), Get(v, TYPE).Some?))
  }

  /**
    `parseCanonicalArguments`: an object whose canonical text is the text itself.  Only such
    texts are accepted, and on them `JSON.parse` reads what the strict grammar says.
   */
  function ParseCanonicalArguments(text: Text, prints: Numeral -> bool): Option<Json> {
    var read := Inspect(text, prints);
    if Envelope.Utf8Length(text) > MAX_ARGUMENT_BYTES || read.Stop? then None
    else
      var t := read.piece;
      if Formed(t) && Meaning(t).Obj? && CanonicalText(Meaning(t), prints) == Ok(text) then Some(Meaning(t)) else None
  }

  function FindTool(tools: seq<Tool>, name: Text): Option<Tool> {
    if tools == [] then None else if tools[0].name == name then Some(tools[0]) else FindTool(tools[1..], name)
  }

  /** `projectFunctionCall`. */
  function ProjectCall(v: Json, tools: seq<Tool>, a: Arithmetic): Result<Call, ContractError> {
    var arguments, callId := GetText(v, ARGUMENTS), GetText(v, CALL_ID);
    var itemId, name := GetText(v, ID), GetText(v, NAME);
    if || !IsText(v, TYPE, FUNCTION_CALL) || arguments.None? || callId.None? || !IsCallId(callId.value)
       || itemId.None? || !Opaque(Ascii("fc_"), itemId.value) || name.None?
       || (Get(v, STATUS).Some? && !IsText(v, STATUS, COMPLETED))
    then Err(RequestInvalid)
    else
      var tool, value := FindTool(tools, name.value), ParseCanonicalArguments(arguments.value, a.prints);
      if tool.None? || value.None? || !MatchesArguments(tool.value.parameters, value.value, a)
      then Err(ArgumentsInvalid)
      else Ok(Call(arguments.value, callId.value, itemId.value, name.value))
  }

  /** `projectFunctionCallOutput`. */
  function ProjectOutput(v: Json): Option<Output> {
    var callId, output := GetText(v, CALL_ID), GetText(v, OUTPUT);
    if || !IsText(v, TYPE, FUNCTION_CALL_OUTPUT) || callId.None? || !IsCallId(callId.value) || output.None?
       || (Get(v, ID).Some? && !Get(v, ID).value.Str?)
    then None
    else Some(Output(callId.value, output.value))
  }

  // ----- JSON forms -----

  function ContentJson(c: Content): Json {
    match c
    case Whole(text) => Str(text)
    case Parts(texts) =>
      Arr(seq(|texts|, i requires 0 <= i < |texts| => Obj([Member(TEXT, Str(texts[i])),
                                                           Member(TYPE, Str(INPUT_TEXT))])))
  }

  function MessageJson(m: Message): Json {
    Obj([Member(CONTENT, ContentJson(m.content)), Member(ROLE, Str(if m.user then USER else DEVELOPER))]
        + if m.typed then [Member(TYPE, Str(MESSAGE))] else [])
  }

  function CallJson(c: Call): Json {
    Obj([Member(ARGUMENTS, Str(c.arguments)), Member(CALL_ID, Str(c.callId)), Member(ID, Str(c.itemId)),
         Member(NAME, Str(c.name)), Member(STATUS, Str(COMPLETED)), Member(TYPE, Str(FUNCTION_CALL))])
  }

  function OutputJson(o: Output): Json {
    Obj([Member(CALL_ID, Str(o.callId)), Member(OUTPUT, Str(o.output)), Member(TYPE, Str(FUNCTION_CALL_OUTPUT))])
  }

  function MessagesJson(ms: seq<Message>): (items: seq<Json>)
    ensures |items| == |ms|
  {
    seq(|ms|, i requires 0 <= i < |ms| => MessageJson(ms[i]))
  }

  function HistoryItems(h: seq<Exchange>): (items: seq<Json>)
    ensures |items| == 2 * |h|
    ensures forall i :: 0 <= i < |h| ==>
              items[2 * i] == CallJson(h[i].call) && items[2 * i + 1] == OutputJson(h[i].output)
  {
    if h == [] then [] else [CallJson(h[0].call), OutputJson(h[0].output)] + HistoryItems(h[1..])
  }

  function HistoryText(h: seq<Exchange>, prints: Numeral -> bool): Result<Text, CanonicalError> {
    CanonicalText(Arr(HistoryItems(h)), prints)
  }

  /** `encodedCanonicalBytes`, infinite where there is no canonical text. */
  predicate FitsIn(v: Json, bytes: nat, prints: Numeral -> bool) {
    var text := CanonicalText(v, prints);
    text.Ok? && Envelope.Utf8Length(text.value) <= bytes
  }

  // ----- projections of the input -----

  function LeadingMessages(items: seq<Json>): (n: nat)
    ensures n <= |items|
  {
    if items == [] || ProjectMessage(items[0]).None? then 0 else 1 + LeadingMessages(items[1..])
  }

  function ProjectMessages(items: seq<Json>): Option<seq<Message>> {
    if items == [] then Some([])
    else
      var first, rest := ProjectMessage(items[0]), ProjectMessages(items[1..]);
      if first.None? || rest.None? then None else Some([first.value] + rest.value)
  }

  /** `projectMessagePrefix`: messages only, the last one the user's. */
  function ProjectPrefix(items: seq<Json>): Option<seq<Message>> {
    var ms := ProjectMessages(items);
    if items == [] || |items| > MAX_INPUT_ITEMS || ms.None? then None
    else if ms.value != [] && ms.value[|ms.value| - 1].user then ms
    else None
  }

  function ProjectExchange(call: Json, output: Json, tools: seq<Tool>, a: Arithmetic): Result<Exchange, ContractError> {
    var c, o := ProjectCall(call, tools, a), ProjectOutput(output);
    if c.Err? then Err(c.error)
    else if o.None? || o.value.callId != c.value.callId || Envelope.Utf8Length(o.value.output) > MAX_RESULT_BYTES
    then Err(RequestInvalid)
    else Ok(Exchange(c.value, o.value))
  }

  function ProjectHistory(suffix: seq<Json>, tools: seq<Tool>, a: Arithmetic): Result<seq<Exchange>, ContractError>
    decreases |suffix|
  {
    if |suffix| < 2 then Ok([])
    else MoreHistory(ProjectExchange(suffix[0], suffix[1], tools, a), ProjectHistory(suffix[2..], tools, a))
  }

  function MoreHistory(first: Result<Exchange, ContractError>, rest: Result<seq<Exchange>, ContractError>):
    Result<seq<Exchange>, ContractError>
  {
    if first.Err? then Err(first.error) else if rest.Err? then rest else Ok([first.value] + rest.value)
  }

  /** What a continuation is accepted as: the messages, all its exchanges and the next fingerprint. */
  datatype Continued = Continued(messages: seq<Message>, history: seq<Exchange>, fingerprint: Text)

  /** `projectContinuationInput`. */
  function ProjectContinuation(items: seq<Json>, tools: seq<Tool>, expected: Text, sha: Text -> Text, a: Arithmetic):
    Result<Continued, ContractError>
  {
    var n := LeadingMessages(items);
    var messages, suffix := ProjectPrefix(items[..n]), items[n..];
    if || |items| < 3 || |items| > MAX_INPUT_ITEMS + 2 * MAX_TOOL_CALLS || messages.None?
       || |suffix| < 2 || |suffix| % 2 != 0 || |suffix| > 2 * MAX_TOOL_CALLS
       || !FitsIn(Arr(MessagesJson(messages.value)), MAX_INPUT_BYTES, a.prints)
    then Err(RequestInvalid)
    else
      var history := ProjectHistory(suffix, tools, a);
      if history.Err? then Err(history.error)
      else Chain(messages.value, history.value, expected, sha, a)
  }

  /** `projectedHistory.slice(0, -2)`, in exchanges. */
  function Front(history: seq<Exchange>): seq<Exchange> {
    if history == [] then [] else history[..|history| - 1]
  }

  /** The link to the history accepted before: all but the last exchange must digest to it. */
  function Chain(messages: seq<Message>, history: seq<Exchange>, expected: Text, sha: Text -> Text, a: Arithmetic):
    Result<Continued, ContractError>
  {
    var prior := HistoryText(Front(history), a.prints);
    var full := HistoryText(history, a.prints);
    if prior.Err? || full.Err? then Err(RequestInvalid)
    else if Envelope.Utf8Length(full.value) > MAX_REQUEST_BYTES || sha(prior.value) != expected then Err(ContractDrift)
    else Ok(Continued(messages, history, sha(full.value)))
  }

  // ----- equal texts, equal items -----

  lemma KeysDistinct()
    ensures DistinctKeys([Member(ARGUMENTS, Null), Member(CALL_ID, Null), Member(ID, Null), Member(NAME, Null),
                          Member(STATUS, Null), Member(TYPE, Null)])
    ensures CALL_ID != OUTPUT && OUTPUT != TYPE && CONTENT != ROLE && CONTENT != TYPE && ROLE != TYPE && TEXT != TYPE
    ensures USER != DEVELOPER
  {
    assert ARGUMENTS[0] != CALL_ID[0] && ARGUMENTS[0] != ID[0] && ARGUMENTS[0] != NAME[0] && ARGUMENTS[0] != STATUS[0];
    assert ARGUMENTS[0] != TYPE[0] && CALL_ID[0] != ID[0] && CALL_ID[0] != NAME[0] && CALL_ID[0] != STATUS[0];
    assert CALL_ID[0] != TYPE[0] && ID[0] != NAME[0] && ID[0] != STATUS[0] && ID[0] != TYPE[0] && NAME[0] != STATUS[0];
    assert NAME[0] != TYPE[0] && STATUS[0] != TYPE[0] && OUTPUT[0] != CALL_ID[0] && OUTPUT[0] != TYPE[0];
    assert CONTENT[0] != ROLE[0] && CONTENT[0] != TYPE[0] && ROLE[0] != TYPE[0] && TEXT[1] != TYPE[1];
    assert USER[0] != DEVELOPER[0];
  }

  lemma {:induction false} LookupAt(ms: seq<Member>, i: nat)
    requires i < |ms| && DistinctKeys(ms)
    ensures Lookup(ms, ms[i].key) == Some(ms[i].value)
  {
    if i > 0 {
      LookupAt(ms[1..], i - 1);
    }
  }

  /** Objects equal up to key order that list the same keys are equal member by member. */
  lemma SameMember(left: Json, right: Json, i: nat)
    requires left.Obj? && right.Obj? && SameJson(left, right) && i < |left.members|
    requires i < |right.members| && left.members[i].key == right.members[i].key && DistinctKeys(right.members)
    ensures SameJson(left.members[i].value, right.members[i].value)
  {
    LookupAt(right.members, i);
  }

  lemma CallKeys(c: Call)
    ensures CallJson(c).Obj? && DistinctKeys(CallJson(c).members) && Plain(CallJson(c))
  {
    KeysDistinct();
  }

  lemma OutputKeys(o: Output)
    ensures OutputJson(o).Obj? && DistinctKeys(OutputJson(o).members) && Plain(OutputJson(o))
  {
    KeysDistinct();
  }

  lemma SameCall(c: Call, d: Call)
    requires SameJson(CallJson(c), CallJson(d))
    ensures c == d
  {
    hide SameJson;
    CallKeys(d);
    SameMember(CallJson(c), CallJson(d), 0);
    SameMember(CallJson(c), CallJson(d), 1);
    SameMember(CallJson(c), CallJson(d), 2);
    SameMember(CallJson(c), CallJson(d), 3);
    SameString(c.arguments, d.arguments);
    SameString(c.callId, d.callId);
    SameString(c.itemId, d.itemId);
    SameString(c.name, d.name);
  }

  lemma SameOutput(o: Output, p: Output)
    requires SameJson(OutputJson(o), OutputJson(p))
    ensures o == p
  {
    hide SameJson;
    OutputKeys(p);
    SameMember(OutputJson(o), OutputJson(p), 0);
    SameMember(OutputJson(o), OutputJson(p), 1);
    SameString(o.callId, p.callId);
    SameString(o.output, p.output);
  }

  lemma SameString(s: Text, t: Text)
    requires SameJson(Str(s), Str(t))
    ensures s == t
  {
  }

  lemma HistoryPlain(h: seq<Exchange>)
    ensures Plain(Arr(HistoryItems(h)))
  {
    hide CallJson, OutputJson, Plain;
    var items := HistoryItems(h);
    forall i | 0 <= i < |items| ensures Plain(items[i]) {
      CallKeys(h[i / 2].call);
      OutputKeys(h[i / 2].output);
      assert i == 2 * (i / 2) || i == 2 * (i / 2) + 1;
    }
    PlainArray(items);
  }

  lemma PlainArray(items: seq<Json>)
    requires forall i :: 0 <= i < |items| ==> Plain(items[i])
    ensures Plain(Arr(items))
  {
  }

  /** Two histories with one canonical text are one history. */
  lemma HistoryInjective(g: seq<Exchange>, h: seq<Exchange>, prints: Numeral -> bool)
    requires HistoryText(g, prints).Ok? && HistoryText(g, prints) == HistoryText(h, prints)
    ensures g == h
  {
    hide CallJson, OutputJson, SameJson, Plain, CanonicalText;
    HistoryPlain(g);
    HistoryPlain(h);
    CanonicalInjective(Arr(HistoryItems(g)), Arr(HistoryItems(h)), prints);
    SameShape(Arr(HistoryItems(g)), Arr(HistoryItems(h)));
    forall i | 0 <= i < |g| ensures g[i] == h[i] {
      assert SameJson(Arr(HistoryItems(g)).items[2 * i], Arr(HistoryItems(h)).items[2 * i]);
      assert SameJson(Arr(HistoryItems(g)).items[2 * i + 1], Arr(HistoryItems(h)).items[2 * i + 1]);
      SameCall(g[i].call, h[i].call);
      SameOutput(g[i].output, h[i].output);
    }
  }

  ghost predicate Injective(sha: Text -> Text) {
    forall s, t :: sha(s) == sha(t) ==> s == t
  }

  /**
    The chain.  A continuation accepted against the digest of a history is that history and
    one more exchange, and carries the digest of the whole: nothing earlier can change.
   */
  lemma HistoryExtends(items: seq<Json>, tools: seq<Tool>, before: seq<Exchange>, sha: Text -> Text, a: Arithmetic)
    requires Injective(sha) && HistoryText(before, a.prints).Ok?
    requires ProjectContinuation(items, tools, sha(HistoryText(before, a.prints).value), sha, a).Ok?
    ensures var c := ProjectContinuation(items, tools, sha(HistoryText(before, a.prints).value), sha, a).value;
            && c.history != [] && c.history[..|c.history| - 1] == before
            && HistoryText(c.history, a.prints).Ok? && c.fingerprint == sha(HistoryText(c.history, a.prints).value)
  {
    hide HistoryText, ProjectHistory, ProjectPrefix, FitsIn, LeadingMessages, Envelope.Utf8Length;
    var c := ProjectContinuation(items, tools, sha(HistoryText(before, a.prints).value), sha, a).value;
    HistoryInjective(before, Front(c.history), a.prints);
    HistoryCount(items[LeadingMessages(items)..], tools, a);
  }

  lemma {:induction false} HistoryCount(suffix: seq<Json>, tools: seq<Tool>, a: Arithmetic)
    requires ProjectHistory(suffix, tools, a).Ok?
    ensures |ProjectHistory(suffix, tools, a).value| == |suffix| / 2
    decreases |suffix|
  {
    hide ProjectExchange;
    if |suffix| >= 2 {
      HistoryCount(suffix[2..], tools, a);
    }
  }

  /** `parseCanonicalArguments` accepts exactly the canonical texts of objects, and reads them back. */
  lemma ArgumentsAreCanonical(text: Text, prints: Numeral -> bool)
    ensures ParseCanonicalArguments(text, prints).Some? <==>
            Envelope.Utf8Length(text) <= MAX_ARGUMENT_BYTES &&
            exists v :: Plain(v) && v.Obj? && CanonicalText(v, prints) == Ok(text)
    ensures forall v :: Plain(v) && v.Obj? && CanonicalText(v, prints) == Ok(text) &&
                        ParseCanonicalArguments(text, prints).Some? ==>
                        SameJson(v, ParseCanonicalArguments(text, prints).value)
  {
    hide Plain, CanonicalText, SameJson, Inspect, Meaning, Formed, Envelope.Utf8Length;
    if ParseCanonicalArguments(text, prints).Some? {
      ScannedIsCanonicalizable(text, prints);
    }
    forall v | Plain(v) && v.Obj? && CanonicalText(v, prints) == Ok(text)
      ensures Envelope.Utf8Length(text) <= MAX_ARGUMENT_BYTES ==>
                ParseCanonicalArguments(text, prints).Some? && SameJson(v, ParseCanonicalArguments(text, prints).value)
    {
      RoundTrip(v, prints);
      SameShape(v, Meaning(Inspect(text, prints).piece));
    }
  }

  /** The child's re-encoding of committed arguments is parsed, and judged as the arguments were. */
  lemma ReencodedVerdict(v: Json, text: Text, schema: Schema, a: Arithmetic)
    requires Plain(v) && v.Obj? && CanonicalText(v, a.prints) == Ok(text)
             && Envelope.Utf8Length(text) <= MAX_ARGUMENT_BYTES
    ensures var w := ParseCanonicalArguments(text, a.prints);
            w.Some? && (MatchesArguments(schema, w.value, a) <==> MatchesArguments(schema, v, a))
  {
    hide Plain, CanonicalText, SameJson, Inspect, Meaning, Formed, Envelope.Utf8Length, MatchesArguments;
    ArgumentsAreCanonical(text, a.prints);
    ScannedIsCanonicalizable(text, a.prints);
    VerdictIgnoresKeyOrder(schema, v, ParseCanonicalArguments(text, a.prints).value, a);
  }

  // ----- the source's loops -----

  lemma LeadingNext(items: seq<Json>, i: nat)
    requires i < |items|
    ensures LeadingMessages(items[i..]) ==
            if ProjectMessage(items[i]).None? then 0 else 1 + LeadingMessages(items[i + 1..])
  {
    hide ProjectMessage;
    assert items[i..][1..] == items[i + 1..];
  }

  lemma MessagesNext(items: seq<Json>, i: nat)
    requires i < |items|
    ensures ProjectMessages(items[i..]) ==
            var first, rest := ProjectMessage(items[i]), ProjectMessages(items[i + 1..]);
            if first.None? || rest.None? then None else Some([first.value] + rest.value)
  {
    hide ProjectMessage;
    assert items[i..][1..] == items[i + 1..];
  }

  lemma HistoryNext(suffix: seq<Json>, i: nat, tools: seq<Tool>, a: Arithmetic)
    requires i + 2 <= |suffix|
    ensures ProjectHistory(suffix[i..], tools, a) ==
            MoreHistory(ProjectExchange(suffix[i], suffix[i + 1], tools, a), ProjectHistory(suffix[i + 2..], tools, a))
  {
    hide ProjectExchange, MoreHistory;
    assert suffix[i..][2..] == suffix[i + 2..];
  }

  /** A loop that has pushed `done` ends with it before what is left. */
  predicate Gathers(whole: Option<seq<Message>>, done: seq<Message>, left: Option<seq<Message>>) {
    match left
    case None => whole == None
    case Some(rest) => whole == Some(done + rest)
  }

  predicate Collects(whole: Result<seq<Exchange>, ContractError>, done: seq<Exchange>,
                     left: Result<seq<Exchange>, ContractError>)
  {
    match left
    case Err(e) => whole == Err(e)
    case Ok(rest) => whole == Ok(done + rest)
  }

  lemma CollectMore(whole: Result<seq<Exchange>, ContractError>, done: seq<Exchange>, next: Exchange,
                    left: Result<seq<Exchange>, ContractError>)
    requires Collects(whole, done, MoreHistory(Ok(next), left))
    ensures Collects(whole, done + [next], left)
  {
    if left.Ok? {
      assert done + ([next] + left.value) == (done + [next]) + left.value;
    }
  }

  lemma GatherMore(whole: Option<seq<Message>>, done: seq<Message>, next: Message, left: Option<seq<Message>>)
    requires Gathers(whole, done, if left.None? then None else Some([next] + left.value))
    ensures Gathers(whole, done + [next], left)
  {
    if left.Some? {
      assert done + ([next] + left.value) == (done + [next]) + left.value;
    }
  }

  method ProjectMessagePrefix(items: seq<Json>) returns (r: Option<seq<Message>>)
    ensures r == ProjectPrefix(items)
  {
    hide ProjectMessage, ProjectMessages;
    if items == [] || |items| > MAX_INPUT_ITEMS {
      return None;
    }
    var messages: seq<Message> := [];
    var hasUser := false;
    var i := 0;
    assert items[0..] == items;
    NoMessages();
    assert ProjectMessages(items).Some? ==> [] + ProjectMessages(items).value == ProjectMessages(items).value;
    while i < |items|
      invariant 0 <= i <= |items| && |messages| == i
      invariant hasUser <==> exists m :: m in messages && m.user
      invariant Gathers(ProjectMessages(items), messages, ProjectMessages(items[i..]))
    {
      MessagesNext(items, i);
      var projected := ProjectMessage(items[i]);
      if projected.None? {
        return None;
      }
      if ProjectMessages(items[i + 1..]).Some? {
        GatherMore(ProjectMessages(items), messages, projected.value, ProjectMessages(items[i + 1..]));
      }
      hasUser := hasUser || projected.value.user;
      messages := messages + [projected.value];
      i := i + 1;
    }
    assert items[i..] == [] && messages + [] == messages;
    if !hasUser || !messages[|messages| - 1].user {
      return None;
    }
    return Some(messages);
  }

  lemma NoMessages()
    ensures ProjectMessages([]) == Some([])
  {
  }

  method ProjectContinuationInput(items: seq<Json>, tools: seq<Tool>, expected: Text, sha: Text -> Text, a: Arithmetic)
    returns (r: Result<Continued, ContractError>)
    ensures r == ProjectContinuation(items, tools, expected, sha, a)
  {
    hide ProjectMessage, ProjectPrefix, ProjectExchange, ProjectHistory, LeadingMessages, FitsIn, MessagesJson,
      HistoryText, Envelope.Utf8Length, MoreHistory;
    if |items| < 3 || |items| > MAX_INPUT_ITEMS + 2 * MAX_TOOL_CALLS {
      return Err(RequestInvalid);
    }
    var messageCount := CountMessages(items);
    var messages := ProjectMessagePrefix(items[..messageCount]);
    var suffix := items[messageCount..];
    if || messages.None? || |suffix| < 2 || |suffix| % 2 != 0 || |suffix| > 2 * MAX_TOOL_CALLS
       || !FitsIn(Arr(MessagesJson(messages.value)), MAX_INPUT_BYTES, a.prints)
    {
      return Err(RequestInvalid);
    }
    var history := GatherHistory(suffix, tools, a);
    if history.Err? {
      return Err(history.error);
    }
    var prior, full := HistoryText(Front(history.value), a.prints), HistoryText(history.value, a.prints);
    if prior.Err? || full.Err? {
      return Err(RequestInvalid);
    }
    if Envelope.Utf8Length(full.value) > MAX_REQUEST_BYTES || sha(prior.value) != expected {
      return Err(ContractDrift);
    }
    return Ok(Continued(messages.value, history.value, sha(full.value)));
  }

  method CountMessages(items: seq<Json>) returns (n: nat)
    ensures n == LeadingMessages(items)
  {
    hide ProjectMessage, LeadingMessages;
    n := 0;
    assert items[0..] == items;
    while n < |items| && ProjectMessage(items[n]).Some?
      invariant n <= |items| && LeadingMessages(items) == n + LeadingMessages(items[n..])
    {
      LeadingNext(items, n);
      n := n + 1;
    }
    if n < |items| {
      LeadingNext(items, n);
    }
  }

  method GatherHistory(suffix: seq<Json>, tools: seq<Tool>, a: Arithmetic)
    returns (r: Result<seq<Exchange>, ContractError>)
    requires |suffix| % 2 == 0
    ensures r == ProjectHistory(suffix, tools, a)
  {
    hide ProjectExchange, ProjectHistory;
    var history: seq<Exchange> := [];
    var index := 0;
    assert suffix[0..] == suffix;
    ghost var whole := ProjectHistory(suffix, tools, a);
    assert whole.Ok? ==> [] + whole.value == whole.value;
    while index < |suffix|
      invariant 0 <= index <= |suffix| && index % 2 == 0
      invariant Collects(whole, history, ProjectHistory(suffix[index..], tools, a))
    {
      HistoryNext(suffix, index, tools, a);
      var next := ProjectExchange(suffix[index], suffix[index + 1], tools, a);
      if next.Err? {
        return Err(next.error);
      }
      CollectMore(whole, history, next.value, ProjectHistory(suffix[index + 2..], tools, a));
      history := history + [next.value];
      index := index + 2;
    }
    NoHistory(tools, a);
    assert suffix[index..] == [] && history + [] == history;
    return Ok(history);
  }

  lemma NoHistory(tools: seq<Tool>, a: Arithmetic)
    ensures ProjectHistory([], tools, a) == Ok([])
  {
  }
}
