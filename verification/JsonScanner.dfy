/**
  `JsonStructureScanner`: the source's recursive descent over a mutable index and node
  count.  Every method is proved to do what the scan functions say; a thrown error is
  a `Fail` outcome, after which the fields no longer matter.
 */
module JsonScanner {
  import opened Results
  import opened Utf16
  import opened Decimal
  import opened Numerals
  import opened JsonValue
  import opened Canonicalizer
  import opened JsonGrammar
  import opened JsonScan

  datatype Separation = Closed | Another | Broken

  class JsonStructureScanner {
    const source: Text
    const prints: Numeral -> bool
    var index: nat
    var nodes: nat

    constructor (source: Text, prints: Numeral -> bool)
      ensures this.source == source && this.prints == prints && index == 0 && nodes == 0
    {
      this.source := source;
      this.prints := prints;
      index, nodes := 0, 0;
    }

    /** The method returned where the scan ends, or threw the error the scan stops with. */
    ghost predicate Follows<T>(scan: Scan<T>, r: Outcome<ScanError>)
      reads this
    {
      match scan
      case Found(_, next, total) => r == Pass && index == next && nodes == total
      case Stop(e) => r == Fail(e)
    }

    method Inspect() returns (r: Outcome<ScanError>)
      requires index == 0 && nodes == 0
      modifies this
      ensures r.Pass? <==> JsonScan.Inspect(source, prints).Found?
      ensures r.Fail? ==> JsonScan.Inspect(source, prints) == Stop(r.error)
    {
      SkipWhitespace();
      r := Value(1);
      if r.Fail? {
        return;
      }
      SkipWhitespace();
      if index != |source| {
        return Fail(Invalid);
      }
    }

    method Value(depth: nat) returns (r: Outcome<ScanError>)
      requires index <= |source|
      modifies this
      ensures Follows(ScanValue(source, old(index), depth, old(nodes), prints), r)
      decreases |source| - index, 0
    {
      if depth > MAX_DEPTH {
        return Fail(TooDeep);
      }
      nodes := nodes + 1;
      if nodes > MAX_NODES {
        return Fail(TooComplex);
      }
      if index == |source| {
        return Fail(Invalid);
      }
      var character := source[index];
      if character == LBRACE {
        r := Object(depth);
      } else if character == LBRACKET {
        r := Array(depth);
      } else if character == QUOTE {
        var s := String();
        r := if s.Ok? then Pass else Fail(s.error);
      } else if character == 0x74 {
        r := Literal(TRUE);
      } else if character == 0x66 {
        r := Literal(FALSE);
      } else if character == 0x6E {
        r := Literal(NULL);
      } else if character == MINUS || IsDigit(character) {
        r := Number();
      } else {
        r := Fail(Invalid);
      }
    }

    method Object(depth: nat) returns (r: Outcome<ScanError>)
      requires Looking(source, index, LBRACE) && depth <= MAX_DEPTH && 0 < nodes <= MAX_NODES
      modifies this
      ensures Follows(ScanValue(source, old(index), depth, old(nodes) - 1, prints), r)
      decreases |source| - index - 1, 2
    {
      hide Skip, ScanKey, ScanScalar, ScanElems, ScanFields, ScanValue, Denotes, CharsFormed, Comma, AfterComma,
        Reserved;
      OpenObject(source, index, depth, nodes - 1, prints);
      index := index + 1;
      SkipWhitespace();
      var closed := Take(RBRACE);
      if closed {
        return Pass;
      }
      ghost var whole := ScanFields(source, index, depth + 1, nodes, {}, prints);
      var keys: set<Text> := {};
      while true
        invariant index <= |source|
        invariant FieldsGoOn(whole, ScanFields(source, index, depth + 1, nodes, keys, prints))
        invariant old(index) < index
        decreases |source| - index
      {
        UnfoldFields(source, index, depth + 1, nodes, keys, prints);
        var key := Key(keys);
        if key.Err? {
          return Fail(key.error);
        }
        keys := keys + {key.value};
        r := Value(depth + 1);
        if r.Fail? {
          return;
        }
        var separation := Separator(RBRACE);
        match separation {
          case Closed => return Pass;
          case Broken => return Fail(Invalid);
          case Another =>
        }
      }
    }

    /** The part of the loop of `#object` up to the value: a fresh key and its colon. */
    method Key(keys: set<Text>) returns (r: Result<Text, ScanError>)
      requires index <= |source|
      modifies this`index
      ensures match ScanKey(source, old(index), nodes, keys)
              case Found(key, next, _) => r == Ok(Denotes(key.chars)) && index == next
              case Stop(e) => r == Err(e)
    {
      hide Denotes, Reserved, Skip, ScanString;
      if index == |source| || source[index] != QUOTE {
        StringNeedsQuote(source, index, nodes);
        return Err(Invalid);
      }
      r := String();
      if r.Err? {
        return;
      }
      if r.value in keys {
        return Err(DuplicateKey);
      }
      if Reserved(r.value) {
        return Err(UnsafeKey);
      }
      SkipWhitespace();
      var colon := Take(COLON);
      if !colon {
        return Err(Invalid);
      }
      SkipWhitespace();
    }

    method Array(depth: nat) returns (r: Outcome<ScanError>)
      requires Looking(source, index, LBRACKET) && depth <= MAX_DEPTH && 0 < nodes <= MAX_NODES
      modifies this
      ensures Follows(ScanValue(source, old(index), depth, old(nodes) - 1, prints), r)
      decreases |source| - index - 1, 2
    {
      hide Skip, ScanElems, ScanFields, ScanScalar, ScanValue, Comma, AfterComma;
      OpenArray(source, index, depth, nodes - 1, prints);
      index := index + 1;
      SkipWhitespace();
      var closed := Take(RBRACKET);
      if closed {
        return Pass;
      }
      ghost var whole := ScanElems(source, index, depth + 1, nodes, prints);
      while true
        invariant index <= |source|
        invariant ElemsGoOn(whole, ScanElems(source, index, depth + 1, nodes, prints))
        invariant old(index) < index
        decreases |source| - index
      {
        UnfoldElems(source, index, depth + 1, nodes, prints);
        r := Value(depth + 1);
        if r.Fail? {
          return;
        }
        var separation := Separator(RBRACKET);
        match separation {
          case Closed => return Pass;
          case Broken => return Fail(Invalid);
          case Another =>
        }
      }
    }

    /** The end of a pass of either loop: the closing bracket, or a comma and white space. */
    method Separator(close: CodeUnit) returns (r: Separation)
      requires index <= |source| && close != COMMA
      modifies this`index
      ensures r.Closed? <==> Looking(source, Skip(source, old(index)), close)
      ensures r.Closed? ==> index == Skip(source, old(index)) + 1
      ensures r.Another? <==> Comma(source, old(index))
      ensures r.Another? ==> index == AfterComma(source, old(index))
    {
      SkipWhitespace();
      var closed := Take(close);
      if closed {
        return Closed;
      }
      var comma := Take(COMMA);
      if !comma {
        return Broken;
      }
      SkipWhitespace();
      return Another;
    }

    method String() returns (r: Result<Text, ScanError>)
      requires index <= |source|
      modifies this`index
      ensures match ScanString(source, old(index), nodes)
              case Found(chars, next, _) => r == Ok(Denotes(chars)) && index == next
              case Stop(e) => r == Err(e)
    {
      hide CharSpelling, ScanChar, CharFormed, WellPaired, CharMeaning;
      var open := Take(QUOTE);
      if !open {
        return Err(Invalid);
      }
      ghost var whole := ScanChars(source, index, nodes);
      var raw: seq<Char> := [];
      assert whole.Found? ==> [] + whole.piece == whole.piece;
      while index < |source|
        invariant index <= |source| && CharsFormed(raw)
        invariant CharsGoOn(whole, raw, ScanChars(source, index, nodes))
      {
        if source[index] == QUOTE {
          index := index + 1;
          assert raw + [] == raw;
          var parsed := Denotes(raw);
          var lone := HasLoneSurrogate(parsed);
          return if lone then Err(StringInvalid) else Ok(parsed);
        }
        var ch := ScanChar(source, index);
        if ch.None? {
          return Err(Invalid);
        }
        CharsStep(source, index, nodes, whole, raw, ch.value);
        index := index + |CharSpelling(ch.value)|;
        raw := raw + [ch.value];
      }
      return Err(Invalid);
    }

    method Number() returns (r: Outcome<ScanError>)
      requires index < |source| && (source[index] == MINUS || IsDigit(source[index]))
      modifies this`index
      ensures Follows(ScanScalar(source, old(index), nodes, prints), r)
    {
      var match_ := ScanNumeral(source, index);
      if match_.NoNumeral? {
        return Fail(Invalid);
      }
      if !NumeralCanonical(match_.m, prints) {
        return Fail(NumberInvalid);
      }
      index := match_.next;
      return Pass;
    }

    method Literal(literal: Text) returns (r: Outcome<ScanError>)
      requires index <= |source| && literal in {TRUE, FALSE, NULL}
      modifies this`index
      ensures r == if Starts(source, old(index), literal) then Pass else Fail(Invalid)
      ensures r.Pass? ==> index == old(index) + |literal|
    {
      if !Starts(source, index, literal) {
        return Fail(Invalid);
      }
      index := index + |literal|;
      return Pass;
    }

    method SkipWhitespace()
      requires index <= |source|
      modifies this`index
      ensures index == Skip(source, old(index))
    {
      while index < |source| && IsSpace(source[index])
        invariant index <= |source| && Skip(source, index) == Skip(source, old(index))
      {
        index := index + 1;
      }
    }

    method Take(character: CodeUnit) returns (taken: bool)
      requires index <= |source|
      modifies this`index
      ensures taken <==> Looking(source, old(index), character)
      ensures index == old(index) + if taken then 1 else 0
    {
      taken := index < |source| && source[index] == character;
      if taken {
        index := index + 1;
      }
    }
  }

  /** An array's scan is that of its elements, once past the bracket. */
  lemma OpenArray(src: Text, i: nat, depth: nat, nodes: nat, prints: Numeral -> bool)
    requires Looking(src, i, LBRACKET) && depth <= MAX_DEPTH && nodes + 1 <= MAX_NODES
    ensures var whole := ScanValue(src, i, depth, nodes, prints);
            var open := Skip(src, i + 1);
            if Looking(src, open, RBRACKET) then whole == Found(TArr(src[i + 1..open], NoElems), open + 1, nodes + 1)
            else
              match ScanElems(src, open, depth + 1, nodes + 1, prints)
              case Found(_, next, total) => whole.Found? && whole.next == next && whole.nodes == total
              case Stop(e) => whole == Stop(e)
  {
    hide ScanElems, ScanFields, ScanScalar, Skip;
  }

  lemma OpenObject(src: Text, i: nat, depth: nat, nodes: nat, prints: Numeral -> bool)
    requires Looking(src, i, LBRACE) && depth <= MAX_DEPTH && nodes + 1 <= MAX_NODES
    ensures var whole := ScanValue(src, i, depth, nodes, prints);
            var open := Skip(src, i + 1);
            if Looking(src, open, RBRACE) then whole == Found(TObj(src[i + 1..open], NoFields), open + 1, nodes + 1)
            else
              match ScanFields(src, open, depth + 1, nodes + 1, {}, prints)
              case Found(_, next, total) => whole.Found? && whole.next == next && whole.nodes == total
              case Stop(e) => whole == Stop(e)
  {
    hide ScanElems, ScanFields, ScanScalar, Skip;
  }

  lemma StringNeedsQuote(src: Text, i: nat, nodes: nat)
    requires i <= |src| && !Looking(src, i, QUOTE)
    ensures ScanString(src, i, nodes) == Stop(Invalid)
  {
  }

  lemma CharsStep(src: Text, i: nat, nodes: nat, whole: Scan<seq<Char>>, done: seq<Char>, ch: Char)
    requires i < |src| && src[i] != QUOTE && ScanChar(src, i) == Some(ch)
    requires CharsGoOn(whole, done, ScanChars(src, i, nodes))
    ensures 0 < |CharSpelling(ch)|
    ensures CharsGoOn(whole, done + [ch], ScanChars(src, i + |CharSpelling(ch)|, nodes))
  {
    hide ScanChar, CharsFormed;
    var rest := ScanChars(src, i + |CharSpelling(ch)|, nodes);
    if rest.Found? {
      assert done + ([ch] + rest.piece) == done + [ch] + rest.piece;
    }
  }

  /** A loop that has come this far ends as the scan of what is left does. */
  predicate ElemsGoOn(whole: Scan<Elems>, left: Scan<Elems>) {
    match left
    case Found(_, next, nodes) => whole.Found? && whole.next == next && whole.nodes == nodes
    case Stop(e) => whole == Stop(e)
  }

  predicate FieldsGoOn(whole: Scan<Fields>, left: Scan<Fields>) {
    match left
    case Found(_, next, nodes) => whole.Found? && whole.next == next && whole.nodes == nodes
    case Stop(e) => whole == Stop(e)
  }

  predicate CharsGoOn(whole: Scan<seq<Char>>, done: seq<Char>, left: Scan<seq<Char>>) {
    match left
    case Found(chars, next, nodes) => whole == Found(done + chars, next, nodes)
    case Stop(e) => whole == Stop(e)
  }
}
