/**
  `StrictJsonScanner`, the server's own scanner: a recursive descent like the protocol's, with
  one error for everything.  Every method is proved to do what the scan functions say.
 */
module StrictScanner {
  import opened Results
  import opened Utf16
  import opened Decimal
  import opened Numerals
  import opened JsonValue
  import opened Canonicalizer
  import opened JsonGrammar
  import opened JsonScan
  import opened JsonScanner

  class StrictJsonScanner {
    const source: Text
    const prints: Numeral -> bool
    var index: nat
    var nodes: nat

    constructor (source: Text, prints: Numeral -> bool)
      ensures this.source == source && this.prints == prints && index == 0 && nodes == 0
    {
      this.source := source;
      this.prints := prints;
      index, nodes := 0, 0;
    }

    /** The method returned where the scan ends, or threw where the scan stops. */
    ghost predicate Follows<T>(scan: Scan<T>, ok: bool)
      reads this
    {
      match scan
      case Found(_, next, total) => ok && index == next && nodes == total
      case Stop(_) => !ok
    }

    method Inspect() returns (ok: bool)
      requires index == 0 && nodes == 0
      modifies this
      ensures ok <==> JsonScan.Inspect(source, prints).Found?
    {
      SkipWhitespace();
      ok := Value(1);
      if !ok {
        return;
      }
      SkipWhitespace();
      ok := index == |source|;
    }

    method Value(depth: nat) returns (ok: bool)
      requires index <= |source|
      modifies this
      ensures Follows(ScanValue(source, old(index), depth, old(nodes), prints), ok)
      decreases |source| - index, 0
    {
      if depth > MAX_DEPTH {
        return false;
      }
      nodes := nodes + 1;
      if nodes > MAX_NODES {
        return false;
      }
      if index == |source| {
        return false;
      }
      var character := source[index];
      if character == LBRACE {
        ok := Object(depth);
      } else if character == LBRACKET {
        ok := Array(depth);
      } else if character == QUOTE {
        var s := String();
        ok := s.Some?;
      } else if character == 0x74 {
        ok := Literal(TRUE);
      } else if character == 0x66 {
        ok := Literal(FALSE);
      } else if character == 0x6E {
        ok := Literal(NULL);
      } else if character == MINUS || IsDigit(character) {
        ok := Number();
      } else {
        ok := false;
      }
    }

    method Object(depth: nat) returns (ok: bool)
      requires Looking(source, index, LBRACE) && depth <= MAX_DEPTH && 0 < nodes <= MAX_NODES
      modifies this
      ensures Follows(ScanValue(source, old(index), depth, old(nodes) - 1, prints), ok)
      decreases |source| - index - 1, 2
    {
      hide Skip, ScanKey, ScanScalar, ScanElems, ScanFields, ScanValue, Denotes, CharsFormed, Comma, AfterComma,
        Reserved;
      OpenObject(source, index, depth, nodes - 1, prints);
      index := index + 1;
      SkipWhitespace();
      var closed := Take(RBRACE);
      if closed {
        return true;
      }
      ghost var whole := ScanFields(source, index, depth + 1, nodes, {}, prints);
      var keys: set<Text> := {};
      while true
        invariant index <= |source|
        invariant FieldsGoOn(whole, ScanFields(source, index, depth + 1, nodes, keys, prints))
        invariant old(index) < index
        decreases |source| - index
      {
        UnfoldFields(source, index, depth + 1, nodes, keys, prints);
        var key := Key(keys);
        if key.None? {
          return false;
        }
        keys := keys + {key.value};
        ok := Value(depth + 1);
        if !ok {
          return;
        }
        var separation := Separator(RBRACE);
        match separation {
          case Closed => return true;
          case Broken => return false;
          case Another =>
        }
      }
    }

    /** The part of the loop of `#object` up to the value: a fresh key and its colon. */
    method Key(keys: set<Text>) returns (r: Option<Text>)
      requires index <= |source|
      modifies this`index
      ensures match ScanKey(source, old(index), nodes, keys)
              case Found(key, next, _) => r == Some(Denotes(key.chars)) && index == next
              case Stop(_) => r == None
    {
      hide Denotes, Reserved, Skip, ScanString;
      if index == |source| || source[index] != QUOTE {
        StringNeedsQuote(source, index, nodes);
        return None;
      }
      r := String();
      if r.None? {
        return;
      }
      if r.value in keys || Reserved(r.value) {
        return None;
      }
      SkipWhitespace();
      var colon := Take(COLON);
      if !colon {
        return None;
      }
      SkipWhitespace();
    }

    method Array(depth: nat) returns (ok: bool)
      requires Looking(source, index, LBRACKET) && depth <= MAX_DEPTH && 0 < nodes <= MAX_NODES
      modifies this
      ensures Follows(ScanValue(source, old(index), depth, old(nodes) - 1, prints), ok)
      decreases |source| - index - 1, 2
    {
      hide Skip, ScanElems, ScanFields, ScanScalar, ScanValue, Comma, AfterComma;
      OpenArray(source, index, depth, nodes - 1, prints);
      index := index + 1;
      SkipWhitespace();
      var closed := Take(RBRACKET);
      if closed {
        return true;
      }
      ghost var whole := ScanElems(source, index, depth + 1, nodes, prints);
      while true
        invariant index <= |source|
        invariant ElemsGoOn(whole, ScanElems(source, index, depth + 1, nodes, prints))
        invariant old(index) < index
        decreases |source| - index
      {
        UnfoldElems(source, index, depth + 1, nodes, prints);
        ok := Value(depth + 1);
        if !ok {
          return;
        }
        var separation := Separator(RBRACKET);
        match separation {
          case Closed => return true;
          case Broken => return false;
          case Another =>
        }
      }
    }

    /** The end of a pass of either loop: the closing bracket, or a comma and white space. */
    method Separator(close: CodeUnit) returns (r: Separation)
      requires index <= |source| && close != COMMA
      modifies this`index
      ensures r.Closed? <==> Looking(source, Skip(source, old(index)), close)
      ensures r.Closed? ==> index == Skip(source, old(index)) + 1
      ensures r.Another? <==> Comma(source, old(index))
      ensures r.Another? ==> index == AfterComma(source, old(index))
    {
      SkipWhitespace();
      var closed := Take(close);
      if closed {
        return Closed;
      }
      var comma := Take(COMMA);
      if !comma {
        return Broken;
      }
      SkipWhitespace();
      return Another;
    }

    method String() returns (r: Option<Text>)
      requires index <= |source|
      modifies this`index
      ensures match ScanString(source, old(index), nodes)
              case Found(chars, next, _) => r == Some(Denotes(chars)) && index == next
              case Stop(_) => r == None
    {
      hide CharSpelling, ScanChar, CharFormed, WellPaired, CharMeaning;
      var open := Take(QUOTE);
      if !open {
        return None;
      }
      ghost var whole := ScanChars(source, index, nodes);
      var raw: seq<Char> := [];
      assert whole.Found? ==> [] + whole.piece == whole.piece;
      while index < |source|
        invariant index <= |source| && CharsFormed(raw)
        invariant CharsGoOn(whole, raw, ScanChars(source, index, nodes))
      {
        if source[index] == QUOTE {
          index := index + 1;
          assert raw + [] == raw;
          var parsed := Denotes(raw);
          var lone := HasLoneSurrogate(parsed);
          return if lone then None else Some(parsed);
        }
        var ch := ScanChar(source, index);
        if ch.None? {
          return None;
        }
        CharsStep(source, index, nodes, whole, raw, ch.value);
        index := index + |CharSpelling(ch.value)|;
        raw := raw + [ch.value];
      }
      return None;
    }

    method Number() returns (ok: bool)
      requires index < |source| && (source[index] == MINUS || IsDigit(source[index]))
      modifies this`index
      ensures Follows(ScanScalar(source, old(index), nodes, prints), ok)
    {
      var match_ := ScanNumeral(source, index);
      if match_.NoNumeral? {
        return false;
      }
      if !NumeralCanonical(match_.m, prints) {
        return false;
      }
      index := match_.next;
      return true;
    }

    method Literal(literal: Text) returns (ok: bool)
      requires index <= |source| && literal in {TRUE, FALSE, NULL}
      modifies this`index
      ensures ok <==> Starts(source, old(index), literal)
      ensures ok ==> index == old(index) + |literal|
    {
      if !Starts(source, index, literal) {
        return false;
      }
      index := index + |literal|;
      return true;
    }

    method SkipWhitespace()
      requires index <= |source|
      modifies this`index
      ensures index == Skip(source, old(index))
    {
      while index < |source| && IsSpace(source[index])
        invariant index <= |source| && Skip(source, index) == Skip(source, old(index))
      {
        index := index + 1;
      }
    }

    method Take(character: CodeUnit) returns (taken: bool)
      requires index <= |source|
      modifies this`index
      ensures taken <==> Looking(source, old(index), character)
      ensures index == old(index) + if taken then 1 else 0
    {
      taken := index < |source| && source[index] == character;
      if taken {
        index := index + 1;
      }
    }
  }
}
