/**
  `canonicalizeToolWorkflowJson`: the JSON Canonicalization Scheme of RFC 8785
  (sections 3.2.2.2 and 3.2.3) with a depth budget and a shared node counter.

  `Canonical` is the specification; the methods below it are the source's loops over
  one counter object.  `prints` says which numerals with a fraction or an exponent are
  the print of a finite, non-integer double.
 */
module Canonicalizer {
  import opened Results
  import opened Utf16
  import opened Decimal
  import opened Numerals
  import opened JsonValue

  const MAX_DEPTH := 32
  const MAX_NODES := 4096

  const QUOTE: CodeUnit := 0x22
  const BACKSLASH: CodeUnit := 0x5C
  const COMMA: CodeUnit := 0x2C
  const COLON: CodeUnit := 0x3A
  const LBRACKET: CodeUnit := 0x5B
  const RBRACKET: CodeUnit := 0x5D
  const LBRACE: CodeUnit := 0x7B
  const RBRACE: CodeUnit := 0x7D
  const NULL: Text := [0x6E, 0x75, 0x6C, 0x6C]
  const TRUE: Text := [0x74, 0x72, 0x75, 0x65]
  const FALSE: Text := [0x66, 0x61, 0x6C, 0x73, 0x65]

  /** `unsafeJsonKeys`. */
  predicate Reserved(key: Text) {
    key == Ascii("__proto__") || key == Ascii("constructor") || key == Ascii("prototype")
  }

  datatype CanonicalError = DepthLimit | NodeLimit | NumberDomain | NotUnicode | ReservedKey | NotARecord

  datatype Printed = Printed(text: Text, nodes: nat)
  datatype Pieces = Pieces(pieces: seq<Text>, nodes: nat)

  // ----- JSON.stringify of strings and numbers -----

  function HexDigit(n: int): CodeUnit
    requires 0 <= n < 16
  {
    if n < 10 then 0x30 + n else 0x61 + n - 10
  }

  /** The escape letter RFC 8785 uses for a code unit, if it has a short escape. */
  function ShortEscape(c: CodeUnit): Option<CodeUnit> {
    if c == QUOTE then Some(QUOTE)
    else if c == BACKSLASH then Some(BACKSLASH)
    else if c == 0x08 then Some(0x62)
    else if c == 0x09 then Some(0x74)
    else if c == 0x0A then Some(0x6E)
    else if c == 0x0C then Some(0x66)
    else if c == 0x0D then Some(0x72)
    else None
  }

  function Escape(c: CodeUnit): Text {
    match ShortEscape(c)
    case Some(letter) => [BACKSLASH, letter]
    case None =>
      if c < 0x20 then [BACKSLASH, 0x75, 0x30, 0x30, HexDigit(c / 16), HexDigit(c % 16)] else [c]
  }

  function EscapeAll(s: Text): Text {
    if s == [] then [] else Escape(s[0]) + EscapeAll(s[1..])
  }

  function Quote(s: Text): Text {
    [QUOTE] + EscapeAll(s) + [QUOTE]
  }

  /** The numbers the protocol supports: safe integers and finite non-integers. */
  predicate Supported(number: Number, prints: Numeral -> bool) {
    match number
    case Integer(n) => SafeInteger(n)
    case Real(m) => m.WellFormed() && m.IsReal() && prints(m)
  }

  function PrintNumber(number: Number): Text {
    match number
    case Integer(n) => PrintInteger(n)
    case Real(m) => m.Lexeme()
  }

  // ----- specification -----

  /** `serialized.join(",")`. */
  function Join(pieces: seq<Text>): Text {
    if pieces == [] then []
    else if |pieces| == 1 then pieces[0]
    else pieces[0] + [COMMA] + Join(pieces[1..])
  }

  function Canonical(v: Json, depth: nat, nodes: nat, prints: Numeral -> bool): Result<Printed, CanonicalError>
    decreases v, 1, 0
  {
    if depth > MAX_DEPTH then Err(DepthLimit)
    else if nodes + 1 > MAX_NODES then Err(NodeLimit)
    else
      match v
      case Null => Ok(Printed(NULL, nodes + 1))
      case Bool(b) => Ok(Printed(if b then TRUE else FALSE, nodes + 1))
      case Num(number) =>
        if Supported(number, prints) then Ok(Printed(PrintNumber(number), nodes + 1)) else Err(NumberDomain)
      case Str(s) => if WellPaired(s) then Ok(Printed(Quote(s), nodes + 1)) else Err(NotUnicode)
      case Arr(items) =>
        var p :- CanonicalItems(items, depth + 1, nodes + 1, prints);
        Ok(Printed([LBRACKET] + Join(p.pieces) + [RBRACKET], p.nodes))
      case Obj(ms) =>
        SameElements(Sort(ms), ms);
        var p :- CanonicalMembers(v, Sort(ms), depth + 1, nodes + 1, prints);
        Ok(Printed([LBRACE] + Join(p.pieces) + [RBRACE], p.nodes))
  }

  function CanonicalItems(items: seq<Json>, depth: nat, nodes: nat, prints: Numeral -> bool):
    Result<Pieces, CanonicalError>
    decreases items, 0, 0
  {
    if items == [] then Ok(Pieces([], nodes))
    else
      var first :- Canonical(items[0], depth, nodes, prints);
      var rest :- CanonicalItems(items[1..], depth, first.nodes, prints);
      Ok(Pieces([first.text] + rest.pieces, rest.nodes))
  }

  /** The members of `owner` still to be written, in key order. */
  function CanonicalMembers(owner: Json, ms: seq<Member>, depth: nat, nodes: nat, prints: Numeral -> bool):
    Result<Pieces, CanonicalError>
    requires owner.Obj? && forall m | m in ms :: m in owner.members
    decreases owner, 0, |ms|
  {
    if ms == [] then Ok(Pieces([], nodes))
    else if Reserved(ms[0].key) then Err(ReservedKey)
    else if !WellPaired(ms[0].key) then Err(NotARecord)
    else
      var m := ms[0];
      assert m in owner.members;
      var first :- Canonical(m.value, depth, nodes, prints);
      var rest :- CanonicalMembers(owner, ms[1..], depth, first.nodes, prints);
      Ok(Pieces([Quote(m.key) + [COLON] + first.text] + rest.pieces, rest.nodes))
  }

  /** `canonicalizeToolWorkflowJson`. */
  function CanonicalText(v: Json, prints: Numeral -> bool): Result<Text, CanonicalError> {
    var p :- Canonical(v, 1, 0, prints);
    Ok(p.text)
  }

  // ----- the source's procedures -----

  /** The `{ nodes: number }` object every recursive call shares. */
  class NodeCounter {
    var nodes: nat

    constructor ()
      ensures nodes == 0
    {
      nodes := 0;
    }
  }

  /** What a procedure leaves behind: the text and the counter of the specification, or its error. */
  predicate Agrees(spec: Result<Printed, CanonicalError>, r: Result<Text, CanonicalError>, nodes: nat) {
    match spec
    case Ok(p) => r == Ok(p.text) && nodes == p.nodes
    case Err(e) => r == Err(e)
  }

  method CanonicalizeString(value: Text) returns (r: Result<Text, CanonicalError>)
    ensures r == if WellPaired(value) then Ok(Quote(value)) else Err(NotUnicode)
  {
    var lone := HasLoneSurrogate(value);
    r := if lone then Err(NotUnicode) else Ok(Quote(value));
  }

  method CanonicalizeValue(value: Json, depth: nat, state: NodeCounter, prints: Numeral -> bool)
    returns (r: Result<Text, CanonicalError>)
    modifies state
    ensures Agrees(Canonical(value, depth, old(state.nodes), prints), r, state.nodes)
    decreases value, 1
  {
    if depth > MAX_DEPTH {
      return Err(DepthLimit);
    }
    state.nodes := state.nodes + 1;
    if state.nodes > MAX_NODES {
      return Err(NodeLimit);
    }
    match value {
      case Null => r := Ok(NULL);
      case Bool(b) => r := Ok(if b then TRUE else FALSE);
      case Num(number) => r := if Supported(number, prints) then Ok(PrintNumber(number)) else Err(NumberDomain);
      case Str(s) => r := CanonicalizeString(s);
      case Arr(items) => r := CanonicalizeArray(value, depth, state, prints);
      case Obj(ms) => r := CanonicalizeObject(value, depth, state, prints);
    }
  }

  /** A pass that has emitted `done` and still has `rest` of the specification ahead of it. */
  predicate Resumes(whole: Result<Pieces, CanonicalError>, done: seq<Text>, rest: Result<Pieces, CanonicalError>) {
    match rest
    case Ok(p) => whole == Ok(Pieces(done + p.pieces, p.nodes))
    case Err(e) => whole == Err(e)
  }

  lemma ResumesStart(whole: Result<Pieces, CanonicalError>)
    ensures Resumes(whole, [], whole)
  {
    if whole.Ok? {
      assert [] + whole.value.pieces == whole.value.pieces;
    }
  }

  lemma ResumesStep(whole: Result<Pieces, CanonicalError>, done: seq<Text>, piece: Text,
                    rest: Result<Pieces, CanonicalError>)
    requires Resumes(whole, done, if rest.Ok? then Ok(Pieces([piece] + rest.value.pieces, rest.value.nodes)) else rest)
    ensures Resumes(whole, done + [piece], rest)
  {
    if rest.Ok? {
      assert done + ([piece] + rest.value.pieces) == (done + [piece]) + rest.value.pieces;
    }
  }

  method CanonicalizeArray(value: Json, depth: nat, state: NodeCounter, prints: Numeral -> bool)
    returns (r: Result<Text, CanonicalError>)
    requires value.Arr? && depth <= MAX_DEPTH && 0 < state.nodes <= MAX_NODES
    modifies state
    ensures Agrees(Canonical(value, depth, old(state.nodes) - 1, prints), r, state.nodes)
    decreases value, 0
  {
    ghost var whole := CanonicalItems(value.items, depth + 1, state.nodes, prints);
    var serialized: seq<Text> := [];
    var index := 0;
    ResumesStart(whole);
    assert value.items[0..] == value.items;
    while index < |value.items|
      invariant 0 <= index <= |value.items|
      invariant Resumes(whole, serialized, CanonicalItems(value.items[index..], depth + 1, state.nodes, prints))
    {
      ghost var ahead := value.items[index..];
      assert ahead[0] == value.items[index] && ahead[1..] == value.items[index + 1..];
      var piece := CanonicalizeValue(value.items[index], depth + 1, state, prints);
      if piece.Err? {
        return Err(piece.error);
      }
      ResumesStep(whole, serialized, piece.value,
                  CanonicalItems(ahead[1..], depth + 1, state.nodes, prints));
      serialized := serialized + [piece.value];
      index := index + 1;
    }
    assert serialized + [] == serialized;
    r := Ok([LBRACKET] + Join(serialized) + [RBRACKET]);
  }

  method CanonicalizeObject(value: Json, depth: nat, state: NodeCounter, prints: Numeral -> bool)
    returns (r: Result<Text, CanonicalError>)
    requires value.Obj? && depth <= MAX_DEPTH && 0 < state.nodes <= MAX_NODES
    modifies state
    ensures Agrees(Canonical(value, depth, old(state.nodes) - 1, prints), r, state.nodes)
    decreases value, 0
  {
    var members := Sort(value.members);
    SameElements(members, value.members);
    ghost var whole := CanonicalMembers(value, members, depth + 1, state.nodes, prints);
    var serialized: seq<Text> := [];
    var index := 0;
    ResumesStart(whole);
    assert members[0..] == members;
    while index < |members|
      invariant 0 <= index <= |members|
      invariant Resumes(whole, serialized,
                        CanonicalMembers(value, members[index..], depth + 1, state.nodes, prints))
    {
      var m := members[index];
      ghost var ahead := members[index..];
      assert ahead[0] == m && ahead[1..] == members[index + 1..];
      assert m in value.members;
      if Reserved(m.key) {
        return Err(ReservedKey);
      }
      var lone := HasLoneSurrogate(m.key);
      if lone {
        return Err(NotARecord);
      }
      var key := CanonicalizeString(m.key);
      var piece := CanonicalizeValue(m.value, depth + 1, state, prints);
      if piece.Err? {
        return Err(piece.error);
      }
      ResumesStep(whole, serialized, key.value + [COLON] + piece.value,
                  CanonicalMembers(value, ahead[1..], depth + 1, state.nodes, prints));
      serialized := serialized + [key.value + [COLON] + piece.value];
      index := index + 1;
    }
    assert serialized + [] == serialized;
    r := Ok([LBRACE] + Join(serialized) + [RBRACE]);
  }

  method CanonicalizeToolWorkflowJson(value: Json, prints: Numeral -> bool) returns (r: Result<Text, CanonicalError>)
    ensures r == CanonicalText(value, prints)
  {
    var state := new NodeCounter();
    r := CanonicalizeValue(value, 1, state, prints);
  }
}
