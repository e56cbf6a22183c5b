/**
  Matching arguments against a certified tool schema, and why the verdict does not depend on
  how an object's keys are ordered.

  A schema is the reading of an accepted schema record: absent branches or properties are
  empty ones, and only an object schema, which has properties, is closed.  Comparisons that
  involve a number with a fraction or an exponent are left to `Arithmetic`.
 */
module ToolSchema {
  import opened Results
  import opened Utf16
  import Decimal
  import opened Numerals
  import opened JsonValue
  import opened Canonicalizer
  import opened JsonGrammar
  import opened JsonRoundTrip

  datatype Type = ArrayType | BooleanType | IntegerType | NullType | NumberType | ObjectType | StringType

  datatype Bounds = Bounds(min: Option<int>, max: Option<int>)

  datatype NumberBounds = NumberBounds(
    min: Option<Number>, max: Option<Number>, exclusiveMin: Option<Number>, exclusiveMax: Option<Number>,
    multipleOf: Option<Number>)

  datatype Property = Property(key: Text, schema: Schema)

  datatype Schema = Schema(
    types: Option<set<Type>>, constant: Option<Json>, options: Option<seq<Json>>,
    allOf: seq<Schema>, anyOf: seq<Schema>, oneOf: seq<Schema>, negated: Option<Schema>,
    length: Bounds, number: NumberBounds, count: Bounds, unique: bool, items: Option<Schema>,
    size: Bounds, properties: seq<Property>, required: seq<Text>, closed: bool)

  /** Number comparison and divisibility, and which numerals are printed doubles. */
  datatype Arithmetic = Arithmetic(
    prints: Numeral -> bool, atMost: (Number, Number) -> bool, multiple: (Number, Number) -> bool)

  // ----- comparing values by their canonical text -----

  /** `sameJson`: both have a canonical text and it is the same. */
  predicate SameText(left: Json, right: Json, prints: Numeral -> bool) {
    CanonicalText(left, prints).Ok? && CanonicalText(left, prints) == CanonicalText(right, prints)
  }

  /** Values equal up to key order have the same canonical text, or neither has one. */
  lemma SameCanonical(v: Json, w: Json, prints: Numeral -> bool)
    requires Plain(v) && Plain(w) && SameJson(v, w)
    ensures CanonicalText(v, prints).Ok? <==> CanonicalText(w, prints).Ok?
    ensures CanonicalText(v, prints).Ok? ==> CanonicalText(v, prints) == CanonicalText(w, prints)
  {
    hide ValueClean, Plain, SameJson, CanonicalText, Normalize, ValueNodes, ValueDepth;
    SameIffNormalized(v, w);
    CanonicalIffAcceptable(v, prints);
    CanonicalIffAcceptable(w, prints);
    NormalizeMeasures(v, prints);
    NormalizeMeasures(w, prints);
    if CanonicalText(v, prints).Ok? {
      CanonicalInjective(v, w, prints);
    }
  }

  /** `sameJson` and `sameJsonValue` agree on everything the canonicalizer accepts. */
  lemma SameTextIsSameJson(left: Json, right: Json, prints: Numeral -> bool)
    requires Plain(left) && Plain(right) && CanonicalText(left, prints).Ok? && CanonicalText(right, prints).Ok?
    ensures SameText(left, right, prints) <==> SameJson(left, right)
  {
    CanonicalInjective(left, right, prints);
  }

  lemma SameTextMoves(c: Json, v: Json, w: Json, prints: Numeral -> bool)
    requires Plain(v) && Plain(w) && SameJson(v, w)
    ensures SameText(c, v, prints) <==> SameText(c, w, prints)
  {
    hide Plain, SameJson, CanonicalText;
    SameCanonical(v, w, prints);
  }

  // ----- the matcher -----

  predicate HasType(t: Type, v: Json) {
    match t
    case ArrayType => v.Arr?
    case BooleanType => v.Bool?
    case IntegerType => v.Num? && v.number.Integer? && Decimal.SafeInteger(v.number.n)
    case NullType => v.Null?
    case NumberType => v.Num?
    case ObjectType => v.Obj?
    case StringType => v.Str?
  }

  predicate Within(n: int, b: Bounds) {
    (b.min.Some? ==> b.min.value <= n) && (b.max.Some? ==> n <= b.max.value)
  }

  predicate WithinNumbers(n: Number, b: NumberBounds, a: Arithmetic) {
    && (b.min.Some? ==> a.atMost(b.min.value, n)) && (b.max.Some? ==> a.atMost(n, b.max.value))
    && (b.exclusiveMin.Some? ==> !a.atMost(n, b.exclusiveMin.value))
    && (b.exclusiveMax.Some? ==> !a.atMost(b.exclusiveMax.value, n))
    && (b.multipleOf.Some? ==> a.multiple(n, b.multipleOf.value))
  }

  /** `Array.from(value).length`: code points, a lone surrogate counting as one. */
  function CodePoints(s: Text): nat {
    if s == [] then 0
    else if IsHigh(s[0]) && 1 < |s| && IsLow(s[1]) then 1 + CodePoints(s[2..])
    else 1 + CodePoints(s[1..])
  }

  predicate PropertyAt(ps: seq<Property>, key: Text) {
    exists p :: p in ps && p.key == key
  }

  /** What a schema says of a value before it looks at branches and children. */
  predicate MatchesHere(s: Schema, v: Json, a: Arithmetic) {
    && (s.types.Some? ==> exists t :: t in s.types.value && HasType(t, v))
    && (s.constant.Some? ==> SameText(s.constant.value, v, a.prints))
    && (s.options.Some? ==> exists c :: c in s.options.value && SameText(c, v, a.prints))
    && (v.Str? ==> Within(CodePoints(v.s), s.length))
    && (v.Num? ==> WithinNumbers(v.number, s.number, a))
    && (v.Arr? ==> Within(|v.items|, s.count) && (s.unique ==> AllDifferent(v.items, a.prints)))
    && (v.Obj? ==> KeysFit(s, v.members))
  }

  predicate AllDifferent(items: seq<Json>, prints: Numeral -> bool) {
    forall i, j :: 0 <= i < j < |items| ==> CanonicalText(items[i], prints) != CanonicalText(items[j], prints)
  }

  predicate KeysFit(s: Schema, ms: seq<Member>) {
    && Within(|ms|, s.size)
    && (forall key :: key in s.required ==> Lookup(ms, key).Some?)
    && (s.closed ==> forall m :: m in ms ==> PropertyAt(s.properties, m.key))
  }

  function CountMatches(branches: seq<Schema>, v: Json, a: Arithmetic): nat
    decreases branches, 0
  {
    if branches == [] then 0
    else (if Matches(branches[0], v, a) then 1 else 0) + CountMatches(branches[1..], v, a)
  }

  predicate AllItemsMatch(s: Schema, items: seq<Json>, a: Arithmetic)
    decreases s, 2
  {
    forall i :: 0 <= i < |items| ==> Matches(s, items[i], a)
  }

  /** `matchesSchemaNode`. */
  predicate Matches(s: Schema, v: Json, a: Arithmetic)
    decreases s, 1
  {
    && MatchesHere(s, v, a)
    && (forall i :: 0 <= i < |s.allOf| ==> Matches(s.allOf[i], v, a))
    && (s.anyOf != [] ==> exists i :: 0 <= i < |s.anyOf| && Matches(s.anyOf[i], v, a))
    && (s.oneOf != [] ==> CountMatches(s.oneOf, v, a) == 1)
    && (s.negated.Some? ==> !Matches(s.negated.value, v, a))
    && (v.Arr? && s.items.Some? ==> AllItemsMatch(s.items.value, v.items, a))
    && (v.Obj? ==>
          forall i :: 0 <= i < |s.properties| ==>
            var child := Lookup(v.members, s.properties[i].key);
            child.Some? ==> Matches(s.properties[i].schema, child.value, a))
  }

  /** `matchesCertifiedToolArguments`, for an accepted schema. */
  predicate MatchesArguments(s: Schema, v: Json, a: Arithmetic) {
    CanonicalText(v, a.prints).Ok? && Matches(s, v, a)
  }

  // ----- key order does not matter -----

  /** A key found on the left is found on the right, with a value equal up to key order. */
  lemma FoundSame(left: Json, right: Json, key: Text)
    requires left.Obj? && right.Obj? && Plain(left) && SameJson(left, right) && Lookup(left.members, key).Some?
    ensures var l, r := Lookup(left.members, key), Lookup(right.members, key);
            r.Some? && SameJson(l.value, r.value)
  {
    var l := Lookup(left.members, key);
    var i :| 0 <= i < |left.members| && left.members[i] == Member(key, l.value);
    assert Lookup(right.members, left.members[i].key).Some?;
  }

  lemma Symmetric(left: Json, right: Json)
    requires Plain(left) && Plain(right) && SameJson(left, right)
    ensures SameJson(right, left)
  {
    hide SameJson, Plain, Normalize;
    SameIffNormalized(left, right);
    SameIffNormalized(right, left);
  }

  lemma LookupSame(left: Json, right: Json, key: Text)
    requires left.Obj? && right.Obj? && Plain(left) && Plain(right) && SameJson(left, right)
    ensures var l, r := Lookup(left.members, key), Lookup(right.members, key);
            && (l.Some? <==> r.Some?)
            && (l.Some? ==> Plain(l.value) && Plain(r.value) && SameJson(l.value, r.value))
  {
    var l, r := Lookup(left.members, key), Lookup(right.members, key);
    Symmetric(left, right);
    if l.Some? {
      FoundSame(left, right, key);
      assert Plain(Member(key, l.value).value) && Plain(Member(key, r.value).value);
    } else if r.Some? {
      FoundSame(right, left, key);
    }
  }

  lemma KeysFitSame(s: Schema, v: Json, w: Json)
    requires v.Obj? && w.Obj? && Plain(v) && Plain(w) && SameJson(v, w)
    ensures KeysFit(s, v.members) ==> KeysFit(s, w.members)
  {
    hide Plain, SameJson, PropertyAt;
    forall key ensures Lookup(v.members, key).Some? <==> Lookup(w.members, key).Some? {
      LookupSame(v, w, key);
    }
    SameShape(v, w);
    if KeysFit(s, v.members) && s.closed {
      forall m | m in w.members ensures PropertyAt(s.properties, m.key) {
        assert Lookup(w.members, m.key).Some?;
      }
    }
  }

  lemma SameShape(v: Json, w: Json)
    requires SameJson(v, w)
    ensures v.Arr? <==> w.Arr?
    ensures v.Obj? <==> w.Obj?
    ensures !v.Arr? && !v.Obj? ==> v == w
    ensures v.Arr? ==> |v.items| == |w.items| && forall i :: 0 <= i < |v.items| ==> SameJson(v.items[i], w.items[i])
    ensures v.Obj? ==> |v.members| == |w.members|
  {
  }

  lemma PlainItem(v: Json, i: nat)
    requires v.Arr? && Plain(v) && i < |v.items|
    ensures Plain(v.items[i])
  {
  }

  lemma AllDifferentSame(v: Json, w: Json, prints: Numeral -> bool)
    requires v.Arr? && w.Arr? && Plain(v) && Plain(w) && SameJson(v, w)
    requires ItemsPrint(v.items, prints) && AllDifferent(v.items, prints)
    ensures AllDifferent(w.items, prints)
  {
    hide SameJson, CanonicalText, Plain;
    SameShape(v, w);
    forall i | 0 <= i < |v.items|
      ensures CanonicalText(w.items[i], prints) == CanonicalText(v.items[i], prints)
    {
      PlainItem(v, i);
      PlainItem(w, i);
      SameCanonical(v.items[i], w.items[i], prints);
    }
  }

  predicate ItemsPrint(items: seq<Json>, prints: Numeral -> bool) {
    forall i :: 0 <= i < |items| ==> CanonicalText(items[i], prints).Ok?
  }

  lemma {:induction false} ItemPrints(items: seq<Json>, i: nat, prints: Numeral -> bool)
    requires i < |items| && ItemsClean(items, prints)
    ensures ValueClean(items[i], prints) && ValueDepth(items[i]) <= ItemsDepth(items)
            && ValueNodes(items[i]) <= ItemsNodes(items)
  {
    if i > 0 {
      ItemPrints(items[1..], i - 1, prints);
    }
  }

  lemma {:induction false} MemberPrints(ms: seq<Member>, i: nat, prints: Numeral -> bool)
    requires i < |ms| && MembersClean(ms, prints)
    ensures ValueClean(ms[i].value, prints) && ValueDepth(ms[i].value) <= MembersDepth(ms)
    ensures ValueNodes(ms[i].value) <= MembersNodes(ms)
  {
    if i > 0 {
      MemberPrints(ms[1..], i - 1, prints);
    }
  }

  /** Whatever has a canonical text has one for each of its parts. */
  lemma PartsPrint(v: Json, prints: Numeral -> bool)
    requires CanonicalText(v, prints).Ok?
    ensures v.Arr? ==> ItemsPrint(v.items, prints)
    ensures v.Obj? ==> forall m :: m in v.members ==> CanonicalText(m.value, prints).Ok?
  {
    hide CanonicalText, ValueClean, ItemsClean, MembersClean;
    CanonicalIffAcceptable(v, prints);
    AcceptableParts(v, prints);
    if v.Arr? {
      forall i | 0 <= i < |v.items| ensures CanonicalText(v.items[i], prints).Ok? {
        CanonicalIffAcceptable(v.items[i], prints);
      }
    } else if v.Obj? {
      forall m | m in v.members ensures CanonicalText(m.value, prints).Ok? {
        CanonicalIffAcceptable(m.value, prints);
      }
    }
  }

  lemma AcceptableParts(v: Json, prints: Numeral -> bool)
    requires Acceptable(v, prints)
    ensures v.Arr? ==> forall i :: 0 <= i < |v.items| ==> Acceptable(v.items[i], prints)
    ensures v.Obj? ==> forall m :: m in v.members ==> Acceptable(m.value, prints)
  {
    if v.Arr? {
      forall i | 0 <= i < |v.items| ensures Acceptable(v.items[i], prints) {
        ItemPrints(v.items, i, prints);
      }
    } else if v.Obj? {
      forall m | m in v.members ensures Acceptable(m.value, prints) {
        var i :| 0 <= i < |v.members| && v.members[i] == m;
        MemberPrints(v.members, i, prints);
      }
    }
  }

  lemma HereSame(s: Schema, v: Json, w: Json, a: Arithmetic)
    requires Plain(v) && Plain(w) && SameJson(v, w) && CanonicalText(v, a.prints).Ok? && MatchesHere(s, v, a)
    ensures MatchesHere(s, w, a)
  {
    hide Plain, SameJson, CanonicalText, SameText, KeysFit, AllDifferent;
    SameShape(v, w);
    forall c ensures SameText(c, v, a.prints) <==> SameText(c, w, a.prints) {
      SameTextMoves(c, v, w, a.prints);
    }
    if v.Arr? && s.unique {
      PartsPrint(v, a.prints);
      AllDifferentSame(v, w, a.prints);
    }
    if v.Obj? {
      KeysFitSame(s, v, w);
    }
    if s.types.Some? {
      var t :| t in s.types.value && HasType(t, v);
      assert HasType(t, w);
    }
  }

  lemma {:induction false} CountSame(branches: seq<Schema>, v: Json, w: Json, a: Arithmetic)
    requires Plain(v) && Plain(w) && SameJson(v, w) && CanonicalText(v, a.prints).Ok? && CanonicalText(w, a.prints).Ok?
    ensures CountMatches(branches, v, a) == CountMatches(branches, w, a)
    decreases branches, 0
  {
    hide Plain, SameJson, CanonicalText, Matches;
    if branches != [] {
      MatchesSame(branches[0], v, w, a);
      CountSame(branches[1..], v, w, a);
    }
  }

  lemma {:induction false} MatchesForward(s: Schema, v: Json, w: Json, a: Arithmetic)
    requires Plain(v) && Plain(w) && SameJson(v, w) && CanonicalText(v, a.prints).Ok? && CanonicalText(w, a.prints).Ok?
    requires Matches(s, v, a)
    ensures Matches(s, w, a)
    decreases s, 1
  {
    hide Plain, SameJson, CanonicalText, MatchesHere;
    HereSame(s, v, w, a);
    SameShape(v, w);
    forall i | 0 <= i < |s.allOf| ensures Matches(s.allOf[i], w, a) {
      MatchesSame(s.allOf[i], v, w, a);
    }
    if s.anyOf != [] {
      var i :| 0 <= i < |s.anyOf| && Matches(s.anyOf[i], v, a);
      MatchesSame(s.anyOf[i], v, w, a);
    }
    CountSame(s.oneOf, v, w, a);
    if s.negated.Some? {
      MatchesSame(s.negated.value, v, w, a);
    }
    if v.Arr? && s.items.Some? {
      ItemsSame(s.items.value, v, w, a);
    }
    if v.Obj? {
      forall i | 0 <= i < |s.properties|
        ensures var child := Lookup(w.members, s.properties[i].key);
                child.Some? ==> Matches(s.properties[i].schema, child.value, a)
      {
        ChildSame(s.properties[i], v, w, a);
      }
    }
  }

  lemma {:induction false} ItemsSame(s: Schema, v: Json, w: Json, a: Arithmetic)
    requires v.Arr? && w.Arr? && Plain(v) && Plain(w) && SameJson(v, w)
    requires CanonicalText(v, a.prints).Ok? && CanonicalText(w, a.prints).Ok? && AllItemsMatch(s, v.items, a)
    ensures AllItemsMatch(s, w.items, a)
    decreases s, 3
  {
    hide Plain, SameJson, CanonicalText, Matches;
    SameShape(v, w);
    PartsPrint(v, a.prints);
    PartsPrint(w, a.prints);
    forall i | 0 <= i < |w.items| ensures Matches(s, w.items[i], a) {
      PlainItem(v, i);
      PlainItem(w, i);
      MatchesSame(s, v.items[i], w.items[i], a);
    }
  }

  lemma {:induction false} ChildSame(p: Property, v: Json, w: Json, a: Arithmetic)
    requires v.Obj? && w.Obj? && Plain(v) && Plain(w) && SameJson(v, w)
    requires CanonicalText(v, a.prints).Ok? && CanonicalText(w, a.prints).Ok?
    requires var child := Lookup(v.members, p.key); child.Some? ==> Matches(p.schema, child.value, a)
    ensures var child := Lookup(w.members, p.key); child.Some? ==> Matches(p.schema, child.value, a)
    decreases p, 3
  {
    hide Plain, SameJson, CanonicalText, Matches;
    LookupSame(v, w, p.key);
    PartsPrint(v, a.prints);
    PartsPrint(w, a.prints);
    var l, r := Lookup(v.members, p.key), Lookup(w.members, p.key);
    if l.Some? {
      assert Member(p.key, l.value) in v.members && Member(p.key, r.value) in w.members;
      assert CanonicalText(Member(p.key, l.value).value, a.prints).Ok?;
      assert CanonicalText(Member(p.key, r.value).value, a.prints).Ok?;
      MatchesSame(p.schema, l.value, r.value, a);
    }
  }

  lemma {:induction false} MatchesSame(s: Schema, v: Json, w: Json, a: Arithmetic)
    requires Plain(v) && Plain(w) && SameJson(v, w) && CanonicalText(v, a.prints).Ok? && CanonicalText(w, a.prints).Ok?
    ensures Matches(s, v, a) <==> Matches(s, w, a)
    decreases s, 2
  {
    hide Plain, SameJson, CanonicalText, Matches;
    Symmetric(v, w);
    if Matches(s, v, a) {
      MatchesForward(s, v, w, a);
    }
    if Matches(s, w, a) {
      MatchesForward(s, w, v, a);
    }
  }

  /** Re-encoding arguments with their keys in another order never changes the verdict. */
  lemma VerdictIgnoresKeyOrder(s: Schema, v: Json, w: Json, a: Arithmetic)
    requires Plain(v) && Plain(w) && SameJson(v, w)
    ensures MatchesArguments(s, v, a) <==> MatchesArguments(s, w, a)
  {
    hide Plain, SameJson, CanonicalText, Matches;
    SameCanonical(v, w, a.prints);
    if CanonicalText(v, a.prints).Ok? {
      MatchesSame(s, v, w, a);
    }
  }
}
