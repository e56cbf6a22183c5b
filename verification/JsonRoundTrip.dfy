/**
  The canonicalizer and the strict scanner are a printer and a parser of one another:
  what is printed is accepted and read back, and equal texts mean equal values.
 */
module JsonRoundTrip {
  import opened Results
  import opened Utf16
  import opened Decimal
  import opened Numerals
  import opened JsonValue
  import opened Canonicalizer
  import opened JsonGrammar
  import opened JsonScan
  import opened JsonLanguage

  // ----- what the canonicalizer asks of a value -----

  function ValueNodes(v: Json): nat
    decreases v, 1
  {
    match v
    case Arr(items) => 1 + ItemsNodes(items)
    case Obj(ms) => 1 + MembersNodes(ms)
    case _ => 1
  }

  function ItemsNodes(items: seq<Json>): nat
    decreases items, 0
  {
    if items == [] then 0 else ValueNodes(items[0]) + ItemsNodes(items[1..])
  }

  function MembersNodes(ms: seq<Member>): nat
    decreases ms, 0
  {
    if ms == [] then 0 else ValueNodes(ms[0].value) + MembersNodes(ms[1..])
  }

  function ValueDepth(v: Json): nat
    decreases v, 1
  {
    match v
    case Arr(items) => 1 + ItemsDepth(items)
    case Obj(ms) => 1 + MembersDepth(ms)
    case _ => 1
  }

  function ItemsDepth(items: seq<Json>): nat
    decreases items, 0
  {
    if items == [] then 0 else Max(ValueDepth(items[0]), ItemsDepth(items[1..]))
  }

  function MembersDepth(ms: seq<Member>): nat
    decreases ms, 0
  {
    if ms == [] then 0 else Max(ValueDepth(ms[0].value), MembersDepth(ms[1..]))
  }

  /** Supported numbers, well-formed strings, unreserved keys, at every level. */
  predicate ValueClean(v: Json, prints: Numeral -> bool)
    decreases v, 1
  {
    match v
    case Num(number) => Supported(number, prints)
    case Str(s) => WellPaired(s)
    case Arr(items) => ItemsClean(items, prints)
    case Obj(ms) => MembersClean(ms, prints)
    case _ => true
  }

  predicate ItemsClean(items: seq<Json>, prints: Numeral -> bool)
    decreases items, 0
  {
    items == [] || (ValueClean(items[0], prints) && ItemsClean(items[1..], prints))
  }

  predicate MemberClean(m: Member, prints: Numeral -> bool)
    decreases m.value, 2
  {
    !Reserved(m.key) && WellPaired(m.key) && ValueClean(m.value, prints)
  }

  predicate MembersClean(ms: seq<Member>, prints: Numeral -> bool)
    decreases ms, 0
  {
    ms == [] || (MemberClean(ms[0], prints) && MembersClean(ms[1..], prints))
  }

  predicate Acceptable(v: Json, prints: Numeral -> bool) {
    ValueClean(v, prints) && ValueDepth(v) <= MAX_DEPTH && ValueNodes(v) <= MAX_NODES
  }

  lemma {:induction false} InsertMeasures(m: Member, ms: seq<Member>, prints: Numeral -> bool)
    ensures MembersNodes(Insert(m, ms)) == ValueNodes(m.value) + MembersNodes(ms)
    ensures MembersDepth(Insert(m, ms)) == Max(ValueDepth(m.value), MembersDepth(ms))
    ensures MembersClean(Insert(m, ms), prints) <==> MemberClean(m, prints) && MembersClean(ms, prints)
  {
    hide ValueNodes, ValueDepth, MemberClean, Less;
    if ms == [] || Less(m.key, ms[0].key) {
      assert ([m] + ms)[1..] == ms;
    } else {
      InsertMeasures(m, ms[1..], prints);
      var rest := Insert(m, ms[1..]);
      assert ([ms[0]] + rest)[1..] == rest;
    }
  }

  lemma {:induction false} SortMeasures(ms: seq<Member>, prints: Numeral -> bool)
    ensures MembersNodes(Sort(ms)) == MembersNodes(ms)
    ensures MembersDepth(Sort(ms)) == MembersDepth(ms)
    ensures MembersClean(Sort(ms), prints) <==> MembersClean(ms, prints)
  {
    hide ValueNodes, ValueDepth, MemberClean;
    if ms != [] {
      SortMeasures(ms[1..], prints);
      InsertMeasures(ms[0], Sort(ms[1..]), prints);
    }
  }

  // ----- the canonical syntax tree -----

  function CanonicalChar(c: CodeUnit): Char {
    match ShortEscape(c)
    case Some(letter) => Short(letter)
    case None => if c < 0x20 then Hex([0x30, 0x30, HexDigit(c / 16), HexDigit(c % 16)]) else Plainly(c)
  }

  function CanonicalChars(s: Text): (chars: seq<Char>)
    ensures |chars| == |s|
    ensures forall i :: 0 <= i < |s| ==> chars[i] == CanonicalChar(s[i])
  {
    if s == [] then [] else [CanonicalChar(s[0])] + CanonicalChars(s[1..])
  }

  function CanonicalTree(v: Json): Tree
    decreases v, 1
  {
    match v
    case Null => TNull
    case Bool(b) => TBool(b)
    case Num(Integer(n)) => TNum(OfInteger(n))
    case Num(Real(m)) => TNum(m)
    case Str(s) => TStr(CanonicalChars(s))
    case Arr(items) => TArr([], CanonicalElems(items))
    case Obj(ms) => TObj([], CanonicalFields(ms))
  }

  function CanonicalElems(items: seq<Json>): (es: Elems)
    ensures es.NoElems? <==> items == []
    decreases items, 0
  {
    if items == [] then NoElems else Elem(CanonicalTree(items[0]), [], [], CanonicalElems(items[1..]))
  }

  function CanonicalFields(ms: seq<Member>): (fs: Fields)
    ensures fs.NoFields? <==> ms == []
    decreases ms, 0
  {
    if ms == [] then NoFields
    else Field(CanonicalChars(ms[0].key), [], [], CanonicalTree(ms[0].value), [], [], CanonicalFields(ms[1..]))
  }

  lemma CanonicalCharMeans(c: CodeUnit)
    ensures CharFormed(CanonicalChar(c)) && CharMeaning(CanonicalChar(c)) == c
    ensures CharSpelling(CanonicalChar(c)) == Escape(c)
  {
  }

  lemma {:induction false} CanonicalCharsMean(s: Text)
    ensures CharsFormed(CanonicalChars(s)) && Denotes(CanonicalChars(s)) == s
    ensures CharsSpelling(CanonicalChars(s)) == EscapeAll(s)
    decreases |s|
  {
    hide CanonicalChar, CharFormed, CharMeaning, CharSpelling, Escape;
    if s != [] {
      CanonicalCharsMean(s[1..]);
      CanonicalCharMeans(s[0]);
      assert CanonicalChars(s)[1..] == CanonicalChars(s[1..]);
    }
    forall i | 0 <= i < |s|
      ensures CharFormed(CanonicalChars(s)[i]) && CharMeaning(CanonicalChars(s)[i]) == s[i]
    {
      CanonicalCharMeans(s[i]);
    }
  }

  lemma CanonicalString(s: Text)
    ensures CharsFormed(CanonicalChars(s)) && Denotes(CanonicalChars(s)) == s
    ensures StringSpelling(CanonicalChars(s)) == Quote(s)
  {
    CanonicalCharsMean(s);
  }

  /** The canonical tree of a clean value is clean and means the value. */
  lemma {:induction false} CanonicalTreeMeans(v: Json, prints: Numeral -> bool)
    requires ValueClean(v, prints) && Plain(v)
    ensures var t := CanonicalTree(v);
            Formed(t) && Clean(t, prints) && Meaning(t) == v
    decreases v, 1
  {
    match v {
      case Num(Integer(n)) => IntegerOfOfInteger(n);
      case Str(s) => CanonicalString(s);
      case Arr(items) => CanonicalElemsMean(items, prints);
      case Obj(ms) => CanonicalFieldsMean(ms, prints);
      case _ =>
    }
  }

  lemma {:induction false} CanonicalElemsMean(items: seq<Json>, prints: Numeral -> bool)
    requires ItemsClean(items, prints) && forall x | x in items :: Plain(x)
    ensures var es := CanonicalElems(items);
            ElemsFormed(es) && ElemsClean(es, prints) && ElemsMeaning(es) == items
    decreases items, 0
  {
    hide Plain, ValueClean, Formed, Clean, Meaning, CanonicalTree;
    if items != [] {
      CanonicalTreeMeans(items[0], prints);
      CanonicalElemsMean(items[1..], prints);
    }
  }

  lemma {:induction false} CanonicalFieldsMean(ms: seq<Member>, prints: Numeral -> bool)
    requires MembersClean(ms, prints) && forall m | m in ms :: Plain(m.value)
    ensures var fs := CanonicalFields(ms);
            FieldsFormed(fs) && FieldsClean(fs, prints) && FieldsMeaning(fs) == ms
    decreases ms, 0
  {
    hide Plain, ValueClean, Formed, Clean, Meaning, CanonicalTree, Reserved, WellPaired, CanonicalChars, CharsFormed,
      Denotes;
    if ms != [] {
      CanonicalString(ms[0].key);
      CanonicalTreeMeans(ms[0].value, prints);
      CanonicalFieldsMean(ms[1..], prints);
      assert ms == [ms[0]] + ms[1..];
    }
  }

  /** A tree has the size and the height of the value it means. */
  lemma {:induction false} MeaningMeasures(t: Tree, prints: Numeral -> bool)
    requires Formed(t)
    ensures Nodes(t) == ValueNodes(Meaning(t)) && Depth(t) == ValueDepth(Meaning(t))
    ensures Clean(t, prints) ==> ValueClean(Meaning(t), prints) && Plain(Meaning(t))
  {
    match t {
      case TArr(_, elems) => ElemsMeasures(elems, prints);
      case TObj(_, fields) => FieldsMeasures(fields, prints);
      case _ =>
    }
  }

  lemma {:induction false} ElemsMeasures(es: Elems, prints: Numeral -> bool)
    requires ElemsFormed(es)
    ensures ElemsNodes(es) == ItemsNodes(ElemsMeaning(es)) && ElemsDepth(es) == ItemsDepth(ElemsMeaning(es))
    ensures ElemsClean(es, prints) ==>
              ItemsClean(ElemsMeaning(es), prints) && forall x | x in ElemsMeaning(es) :: Plain(x)
  {
    hide Plain, ValueClean, Formed, Clean, Meaning, Nodes, Depth, ValueNodes, ValueDepth;
    if es.Elem? {
      MeaningMeasures(es.value, prints);
      ElemsMeasures(es.rest, prints);
      assert ElemsMeaning(es)[1..] == ElemsMeaning(es.rest);
    }
  }

  lemma {:induction false} FieldsMeasures(fs: Fields, prints: Numeral -> bool)
    requires FieldsFormed(fs)
    ensures FieldsNodes(fs) == MembersNodes(FieldsMeaning(fs)) && FieldsDepth(fs) == MembersDepth(FieldsMeaning(fs))
    ensures FieldsClean(fs, prints) ==>
              MembersClean(FieldsMeaning(fs), prints) && forall m | m in FieldsMeaning(fs) :: Plain(m.value)
  {
    hide Plain, ValueClean, Formed, Clean, Meaning, Nodes, Depth, ValueNodes, ValueDepth, Reserved, WellPaired, Denotes,
      CharsFormed;
    if fs.Field? {
      MeaningMeasures(fs.value, prints);
      FieldsMeasures(fs.rest, prints);
      assert FieldsMeaning(fs)[1..] == FieldsMeaning(fs.rest);
    }
  }

  // ----- normalizing changes nothing the canonicalizer looks at -----

  lemma {:induction false} NormalizeMeasures(v: Json, prints: Numeral -> bool)
    ensures ValueNodes(Normalize(v)) == ValueNodes(v) && ValueDepth(Normalize(v)) == ValueDepth(v)
    ensures ValueClean(Normalize(v), prints) <==> ValueClean(v, prints)
    ensures Plain(v) ==> Plain(Normalize(v))
    decreases v, 1
  {
    hide Sort, NormalizeItems, NormalizeMembers, MembersNodes, MembersDepth, MembersClean, ItemsNodes, ItemsDepth,
      ItemsClean, Sorted;
    match v {
      case Arr(items) => NormalizeItemsMeasures(items, prints);
      case Obj(ms) =>
        NormalizeMembersMeasures(ms, prints);
        SortMeasures(NormalizeMembers(ms), prints);
        SameElements(Sort(NormalizeMembers(ms)), NormalizeMembers(ms));
        if Plain(v) {
          SortSorted(NormalizeMembers(ms));
          SortedDistinct(Sort(NormalizeMembers(ms)));
        }
      case _ =>
    }
  }

  lemma {:induction false} NormalizeItemsMeasures(items: seq<Json>, prints: Numeral -> bool)
    ensures ItemsNodes(NormalizeItems(items)) == ItemsNodes(items)
    ensures ItemsDepth(NormalizeItems(items)) == ItemsDepth(items)
    ensures ItemsClean(NormalizeItems(items), prints) <==> ItemsClean(items, prints)
    ensures (forall x | x in items :: Plain(x)) ==> forall x | x in NormalizeItems(items) :: Plain(x)
    decreases items, 0
  {
    hide Plain, ValueNodes, ValueDepth, ValueClean, Normalize;
    if items != [] {
      NormalizeMeasures(items[0], prints);
      NormalizeItemsMeasures(items[1..], prints);
      assert NormalizeItems(items)[1..] == NormalizeItems(items[1..]);
    }
  }

  lemma {:induction false} NormalizeMembersMeasures(ms: seq<Member>, prints: Numeral -> bool)
    ensures MembersNodes(NormalizeMembers(ms)) == MembersNodes(ms)
    ensures MembersDepth(NormalizeMembers(ms)) == MembersDepth(ms)
    ensures MembersClean(NormalizeMembers(ms), prints) <==> MembersClean(ms, prints)
    ensures (forall m | m in ms :: Plain(m.value)) ==> forall m | m in NormalizeMembers(ms) :: Plain(m.value)
    decreases ms, 0
  {
    hide Plain, ValueNodes, ValueDepth, ValueClean, Normalize, Reserved, WellPaired;
    if ms != [] {
      NormalizeMeasures(ms[0].value, prints);
      NormalizeMembersMeasures(ms[1..], prints);
      assert NormalizeMembers(ms)[1..] == NormalizeMembers(ms[1..]);
    }
  }

  lemma {:induction false} NormalizeIdempotent(v: Json)
    requires Plain(v)
    ensures Normalize(Normalize(v)) == Normalize(v)
  {
    match v {
      case Arr(items) =>
        forall i | 0 <= i < |items|
          ensures Normalize(Normalize(items[i])) == Normalize(items[i])
        {
          NormalizeIdempotent(items[i]);
        }
        assert NormalizeItems(NormalizeItems(items)) == NormalizeItems(items);
      case Obj(ms) =>
        var ns := NormalizeMembers(ms);
        forall i | 0 <= i < |ms|
          ensures Normalize(ns[i].value) == ns[i].value
        {
          assert ms[i] in ms;
          NormalizeIdempotent(ms[i].value);
        }
        assert NormalizeMembers(ns) == ns;
        NormalizeSort(ns);
        SortSorted(ns);
        SortIdempotent(ns);
      case _ =>
    }
  }

  lemma SortIdempotent(ms: seq<Member>)
    requires DistinctKeys(ms)
    ensures Sort(Sort(ms)) == Sort(ms)
  {
    SortSorted(ms);
    SortedDistinct(Sort(ms));
    SortSorted(Sort(ms));
    SameElements(Sort(Sort(ms)), Sort(ms));
    SortedUnique(Sort(Sort(ms)), Sort(ms));
  }

  // ----- the canonicalizer spells the canonical tree of the normal form -----

  /** Result of printing a value or a list of them, against the syntax tree of its normal form. */
  predicate PrintsTree(r: Result<Printed, CanonicalError>, v: Json, depth: nat, nodes: nat, prints: Numeral -> bool) {
    && (r.Ok? <==>
          && ValueClean(v, prints)
          && depth + ValueDepth(v) <= MAX_DEPTH + 1
          && nodes + ValueNodes(v) <= MAX_NODES)
    && (r.Ok? ==> r.value == Printed(Spelling(CanonicalTree(Normalize(v))), nodes + ValueNodes(v)))
  }

  lemma {:induction false} CanonicalPrints(v: Json, depth: nat, nodes: nat, prints: Numeral -> bool)
    ensures PrintsTree(Canonical(v, depth, nodes, prints), v, depth, nodes, prints)
    decreases v, 2
  {
    ValueMeasuresPositive(v);
    if depth <= MAX_DEPTH && nodes + 1 <= MAX_NODES {
      match v {
        case Arr(items) => ArrayPrints(v, depth, nodes, prints);
        case Obj(ms) => ObjectPrints(v, depth, nodes, prints);
        case Str(s) => CanonicalString(s);
        case _ =>
      }
    }
  }

  lemma ValueMeasuresPositive(v: Json)
    ensures 1 <= ValueNodes(v) && 1 <= ValueDepth(v)
  {
  }

  lemma ArrayPrints(v: Json, depth: nat, nodes: nat, prints: Numeral -> bool)
    requires v.Arr? && depth <= MAX_DEPTH && nodes + 1 <= MAX_NODES
    ensures PrintsTree(Canonical(v, depth, nodes, prints), v, depth, nodes, prints)
    decreases v, 1
  {
    hide ItemsNodes, ItemsDepth, ItemsClean, CanonicalItems, ElemsSpelling, CanonicalElems, NormalizeItems, Join;
    ItemsPrint(v.items, depth + 1, nodes + 1, prints);
    var es := ElemsSpelling(CanonicalElems(NormalizeItems(v.items)));
    assert [] + es == es;
  }

  lemma ObjectPrints(v: Json, depth: nat, nodes: nat, prints: Numeral -> bool)
    requires v.Obj? && depth <= MAX_DEPTH && nodes + 1 <= MAX_NODES
    ensures PrintsTree(Canonical(v, depth, nodes, prints), v, depth, nodes, prints)
    decreases v, 1
  {
    hide MembersNodes, MembersDepth, MembersClean, CanonicalMembers, FieldsSpelling, CanonicalFields, NormalizeMembers,
      Join, Sort;
    SameElements(Sort(v.members), v.members);
    MembersPrint(v, Sort(v.members), depth + 1, nodes + 1, prints);
    SortMeasures(v.members, prints);
    NormalizeSort(v.members);
    var fs := FieldsSpelling(CanonicalFields(NormalizeMembers(Sort(v.members))));
    assert [] + fs == fs;
  }

  lemma {:induction false} ItemsPrint(items: seq<Json>, depth: nat, nodes: nat, prints: Numeral -> bool)
    requires depth <= MAX_DEPTH + 1 && nodes <= MAX_NODES
    ensures var r := CanonicalItems(items, depth, nodes, prints);
            && (r.Ok? <==> ItemsClean(items, prints) && depth + ItemsDepth(items) <= MAX_DEPTH + 1 &&
                           nodes + ItemsNodes(items) <= MAX_NODES)
            && (r.Ok? ==>
                  && r.value.nodes == nodes + ItemsNodes(items) && |r.value.pieces| == |items|
                  && Join(r.value.pieces) + [RBRACKET] == ElemsSpelling(CanonicalElems(NormalizeItems(items))))
    decreases items, 0
  {
    hide Canonical, ValueClean, ValueDepth, ValueNodes, Spelling, CanonicalTree, Normalize;
    if items != [] {
      CanonicalPrints(items[0], depth, nodes, prints);
      var first := Canonical(items[0], depth, nodes, prints);
      if first.Ok? {
        ItemsPrint(items[1..], depth, first.value.nodes, prints);
        assert NormalizeItems(items)[1..] == NormalizeItems(items[1..]);
        var rest := CanonicalItems(items[1..], depth, first.value.nodes, prints);
        if rest.Ok? {
          JoinElem(first.value.text, rest.value.pieces, RBRACKET);
        }
      }
    }
  }

  /** Joining one more piece in front, in the shape the grammar spells it. */
  lemma JoinElem(piece: Text, pieces: seq<Text>, close: CodeUnit)
    ensures Join([piece] + pieces) + [close] ==
            piece + ([] + if pieces == [] then [close] else [COMMA] + ([] + (Join(pieces) + [close])))
  {
    if pieces != [] {
      assert ([piece] + pieces)[1..] == pieces;
      assert [] + (Join(pieces) + [close]) == Join(pieces) + [close];
    }
  }

  lemma {:induction false} MembersPrint(owner: Json, ms: seq<Member>, depth: nat, nodes: nat, prints: Numeral -> bool)
    requires owner.Obj? && (forall m | m in ms :: m in owner.members) && depth <= MAX_DEPTH + 1 && nodes <= MAX_NODES
    ensures var r := CanonicalMembers(owner, ms, depth, nodes, prints);
            && (r.Ok? <==> MembersClean(ms, prints) && depth + MembersDepth(ms) <= MAX_DEPTH + 1 &&
                           nodes + MembersNodes(ms) <= MAX_NODES)
            && (r.Ok? ==>
                  && r.value.nodes == nodes + MembersNodes(ms) && |r.value.pieces| == |ms|
                  && Join(r.value.pieces) + [RBRACE] == FieldsSpelling(CanonicalFields(NormalizeMembers(ms))))
    decreases owner, 0, |ms|
  {
    hide Canonical, ValueClean, ValueDepth, ValueNodes, Spelling, CanonicalTree, Normalize, Reserved, WellPaired,
      CanonicalChars, StringSpelling, Quote;
    if ms != [] && !Reserved(ms[0].key) && WellPaired(ms[0].key) {
      var m := ms[0];
      assert m in owner.members;
      CanonicalPrints(m.value, depth, nodes, prints);
      var first := Canonical(m.value, depth, nodes, prints);
      if first.Ok? {
        MembersPrint(owner, ms[1..], depth, first.value.nodes, prints);
        assert NormalizeMembers(ms)[1..] == NormalizeMembers(ms[1..]);
        var rest := CanonicalMembers(owner, ms[1..], depth, first.value.nodes, prints);
        assert CanonicalMembers(owner, ms, depth, nodes, prints).Ok? <==> rest.Ok?;
        assert MembersClean(ms, prints) <==> MembersClean(ms[1..], prints);
        if rest.Ok? {
          CanonicalString(m.key);
          JoinField(Quote(m.key), first.value.text, rest.value.pieces);
        }
      }
    }
  }

  lemma JoinField(key: Text, value: Text, pieces: seq<Text>)
    ensures Join([key + [COLON] + value] + pieces) + [RBRACE] ==
            key + ([] + ([COLON] + ([] + (value + ([] +
              if pieces == [] then [RBRACE] else [COMMA] + ([] + (Join(pieces) + [RBRACE])))))))
  {
    JoinElem(key + [COLON] + value, pieces, RBRACE);
  }

  // ----- main results -----

  /** The canonicalizer accepts exactly the acceptable values, and spells their canonical tree. */
  lemma CanonicalIffAcceptable(v: Json, prints: Numeral -> bool)
    ensures CanonicalText(v, prints).Ok? <==> Acceptable(v, prints)
    ensures CanonicalText(v, prints).Ok? ==>
              CanonicalText(v, prints).value == Spelling(CanonicalTree(Normalize(v)))
  {
    CanonicalPrints(v, 1, 0, prints);
  }

  lemma CanonicalSpelled(v: Json, prints: Numeral -> bool)
    requires Plain(v) && CanonicalText(v, prints).Ok?
    ensures var t := CanonicalTree(Normalize(v));
            && Spells(CanonicalText(v, prints).value, [], t, []) && Admissible(t, prints) && Meaning(t) == Normalize(v)
            && Nodes(t) == ValueNodes(v) && Depth(t) == ValueDepth(v)
  {
    hide ValueClean, Clean, Spelling, CanonicalTree, Normalize, Plain, Meaning, Formed, CanonicalText, ValueNodes,
      ValueDepth, Nodes, Depth;
    CanonicalIffAcceptable(v, prints);
    NormalizeMeasures(v, prints);
    CanonicalTreeMeans(Normalize(v), prints);
    var t := CanonicalTree(Normalize(v));
    MeaningMeasures(t, prints);
    assert Spelling(t) == [] + Spelling(t) + [];
  }

  /**
    Round trip.  The scanner accepts every canonical text, counts the nodes the
    canonicalizer counted, reads back the same value up to key order, and printing
    what was read gives the same text again.
   */
  lemma RoundTrip(v: Json, prints: Numeral -> bool)
    requires Plain(v) && CanonicalText(v, prints).Ok?
    ensures var text := CanonicalText(v, prints).value;
            var read := Inspect(text, prints);
            && read.Found? && Formed(read.piece)
            && Ok(Printed(text, read.nodes)) == Canonical(v, 1, 0, prints)
            && Depth(read.piece) == ValueDepth(v)
            && Plain(Meaning(read.piece)) && SameJson(v, Meaning(read.piece))
            && CanonicalText(Meaning(read.piece), prints) == Ok(text)
  {
    hide ValueClean, Clean, Spelling, CanonicalTree, Normalize, Plain, Meaning, Formed, Inspect, Canonical, SameJson,
      Violation, ValueNodes, ValueDepth, Nodes, Depth;
    var text := CanonicalText(v, prints).value;
    var t := CanonicalTree(Normalize(v));
    CanonicalSpelled(v, prints);
    NoViolation(t, 1, 0, prints);
    InspectSpelled(text, [], t, [], prints);
    CanonicalPrints(v, 1, 0, prints);
    NormalizeMeasures(v, prints);
    NormalizeIdempotent(v);
    SameIffNormalized(v, Normalize(v));
    CanonicalIffAcceptable(v, prints);
    CanonicalIffAcceptable(Normalize(v), prints);
  }

  /** Two accepted values have one canonical text exactly when they are equal up to key order. */
  lemma CanonicalInjective(v: Json, w: Json, prints: Numeral -> bool)
    requires Plain(v) && Plain(w) && CanonicalText(v, prints).Ok? && CanonicalText(w, prints).Ok?
    ensures CanonicalText(v, prints) == CanonicalText(w, prints) <==> SameJson(v, w)
  {
    hide ValueClean, Clean, Spelling, CanonicalTree, Normalize, Plain, Meaning, Formed, SameJson, CanonicalText,
      Acceptable, Admissible, Nodes, Depth, ValueNodes, ValueDepth;
    SameIffNormalized(v, w);
    CanonicalIffAcceptable(v, prints);
    CanonicalIffAcceptable(w, prints);
    CanonicalSpelled(v, prints);
    CanonicalSpelled(w, prints);
    if CanonicalText(v, prints) == CanonicalText(w, prints) {
      AdmissibleUnique(CanonicalText(v, prints).value, [], CanonicalTree(Normalize(v)), [], [],
                       CanonicalTree(Normalize(w)), [], prints);
    }
  }

  /** Whatever the scanner lets through, the canonicalizer accepts: the two guard one domain. */
  lemma ScannedIsCanonicalizable(src: Text, prints: Numeral -> bool)
    requires Inspect(src, prints).Found?
    ensures var t := Inspect(src, prints).piece;
            Formed(t) && Plain(Meaning(t)) && CanonicalText(Meaning(t), prints).Ok?
  {
    hide ValueClean, Clean, Spelling, Plain, Meaning, Formed, Inspect, CanonicalText, Nodes, Depth, ValueNodes,
      ValueDepth;
    var before, after := InspectFound(src, prints);
    var t := Inspect(src, prints).piece;
    MeaningMeasures(t, prints);
    CanonicalIffAcceptable(Meaning(t), prints);
  }
}
