/**
  JSON values as the tool workflow sees them, and `sameJsonValue`.

  An object is a list of members in whatever order the engine enumerates them; the
  order is arbitrary, the keys are distinct (`Plain`).  An integer is kept as an
  integer.  Any other finite number is kept as the numeral `JSON.stringify` prints for
  it, so that IEEE printing stays outside the model.
 */
module JsonValue {
  import opened Results
  import opened Utf16
  import opened Numerals

  datatype Number = Integer(n: int) | Real(numeral: Numeral)

  datatype Member = Member(key: Text, value: Json)

  datatype Json =
    | Null
    | Bool(b: bool)
    | Num(number: Number)
    | Str(s: Text)
    | Arr(items: seq<Json>)
    | Obj(members: seq<Member>)

  /** No two members share a key. */
  predicate DistinctKeys(ms: seq<Member>) {
    forall i, j :: 0 <= i < j < |ms| ==> ms[i].key != ms[j].key
  }

  /** What every JavaScript object is: a finite map from keys to values, at every level. */
  predicate Plain(v: Json) {
    match v
    case Arr(items) => forall x | x in items :: Plain(x)
    case Obj(ms) => DistinctKeys(ms) && forall m | m in ms :: Plain(m.value)
    case _ => true
  }

  /** `record[key]`, where it exists. */
  function Lookup(ms: seq<Member>, key: Text): (r: Option<Json>)
    ensures r.Some? <==> exists m :: m in ms && m.key == key
    ensures r.Some? ==> Member(key, r.value) in ms
  {
    if ms == [] then None
    else if ms[0].key == key then
      assert ms[0] == Member(key, ms[0].value);
      Some(ms[0].value)
    else Lookup(ms[1..], key)
  }

  /** `sameJsonValue`: arrays element by element, objects by key whatever the order. */
  predicate SameJson(left: Json, right: Json)
    decreases left
  {
    if left.Arr? || right.Arr? then
      && left.Arr? && right.Arr? && |left.items| == |right.items|
      && forall i :: 0 <= i < |left.items| ==> SameJson(left.items[i], right.items[i])
    else if left.Obj? && right.Obj? then
      && |left.members| == |right.members|
      && forall i :: 0 <= i < |left.members| ==>
           var found := Lookup(right.members, left.members[i].key);
           found.Some? && SameJson(left.members[i].value, found.value)
    else
      left == right
  }

  // ----- sorting by key -----

  function Insert(m: Member, ms: seq<Member>): (r: seq<Member>)
    ensures multiset(r) == multiset{m} + multiset(ms)
  {
    if ms == [] || Less(m.key, ms[0].key) then [m] + ms
    else
      assert ms == [ms[0]] + ms[1..];
      [ms[0]] + Insert(m, ms[1..])
  }

  /** `keys.sort(compareUtf16)`, applied to the members the keys name. */
  function Sort(ms: seq<Member>): (r: seq<Member>)
    ensures multiset(r) == multiset(ms)
  {
    if ms == [] then []
    else
      assert ms == [ms[0]] + ms[1..];
      Insert(ms[0], Sort(ms[1..]))
  }

  /** Keys strictly increase from one member to the next. */
  predicate Sorted(ms: seq<Member>) {
    forall i, j :: 0 <= i < j < |ms| ==> Less(ms[i].key, ms[j].key)
  }

  lemma SameElements(a: seq<Member>, b: seq<Member>)
    requires multiset(a) == multiset(b)
    ensures |a| == |b|
    ensures forall m :: m in a <==> m in b
  {
    assert |multiset(a)| == |multiset(b)|;
    forall m
      ensures m in a <==> m in b
    {
      assert m in multiset(a) <==> m in multiset(b);
    }
  }

  lemma {:induction false} InsertSorted(m: Member, ms: seq<Member>)
    requires Sorted(ms)
    requires forall x | x in ms :: x.key != m.key
    ensures Sorted(Insert(m, ms))
  {
    if ms == [] {
    } else if Less(m.key, ms[0].key) {
      forall j | 0 <= j < |ms|
        ensures Less(m.key, ms[j].key)
      {
        if 0 < j {
          LessTransitive(m.key, ms[0].key, ms[j].key);
        }
      }
    } else {
      LessTotal(m.key, ms[0].key);
      InsertSorted(m, ms[1..]);
      var rest := Insert(m, ms[1..]);
      forall j | 0 <= j < |rest|
        ensures Less(ms[0].key, rest[j].key)
      {
        assert rest[j] in multiset(rest);
      }
    }
  }

  lemma {:induction false} SortSorted(ms: seq<Member>)
    requires DistinctKeys(ms)
    ensures Sorted(Sort(ms))
  {
    if ms != [] {
      SortSorted(ms[1..]);
      SameElements(Sort(ms[1..]), ms[1..]);
      InsertSorted(ms[0], Sort(ms[1..]));
    }
  }

  lemma SortedDistinct(ms: seq<Member>)
    requires Sorted(ms)
    ensures DistinctKeys(ms)
  {
    forall i, j | 0 <= i < j < |ms|
      ensures ms[i].key != ms[j].key
    {
      LessIrreflexive(ms[i].key);
    }
  }

  /** A strictly sorted list is determined by the set of its members. */
  lemma {:induction false} SortedUnique(a: seq<Member>, b: seq<Member>)
    requires Sorted(a) && Sorted(b) && |a| == |b|
    requires forall m :: m in a <==> m in b
    ensures a == b
  {
    if a != [] {
      assert a[0] in b;
      var i :| 0 <= i < |b| && b[i] == a[0];
      assert b[0] in a;
      var j :| 0 <= j < |a| && a[j] == b[0];
      if a[0] != b[0] {
        LessTransitive(a[0].key, a[j].key, a[0].key);
        LessIrreflexive(a[0].key);
      }
      forall m
        ensures m in a[1..] <==> m in b[1..]
      {
        TailMember(a, m);
        TailMember(b, m);
      }
      SortedUnique(a[1..], b[1..]);
      assert a == [a[0]] + a[1..] && b == [b[0]] + b[1..];
    }
  }

  lemma TailMember(a: seq<Member>, m: Member)
    requires Sorted(a) && a != []
    ensures m in a[1..] <==> m in a && m != a[0]
  {
    LessIrreflexive(a[0].key);
  }

  // ----- the order-free form of a value -----

  /** The value with the members of every object sorted by key. */
  function Normalize(v: Json): (r: Json)
    decreases v, 1
  {
    match v
    case Arr(items) => Arr(NormalizeItems(items))
    case Obj(ms) => Obj(Sort(NormalizeMembers(ms)))
    case _ => v
  }

  function NormalizeItems(items: seq<Json>): (r: seq<Json>)
    ensures |r| == |items|
    ensures forall i :: 0 <= i < |items| ==> r[i] == Normalize(items[i])
    decreases items, 0
  {
    if items == [] then [] else [Normalize(items[0])] + NormalizeItems(items[1..])
  }

  function NormalizeMembers(ms: seq<Member>): (r: seq<Member>)
    ensures |r| == |ms|
    ensures forall i :: 0 <= i < |ms| ==> r[i] == Member(ms[i].key, Normalize(ms[i].value))
    decreases ms, 0
  {
    if ms == [] then []
    else [Member(ms[0].key, Normalize(ms[0].value))] + NormalizeMembers(ms[1..])
  }

  lemma {:induction false} NormalizeInsert(m: Member, ms: seq<Member>)
    ensures NormalizeMembers(Insert(m, ms)) ==
            Insert(Member(m.key, Normalize(m.value)), NormalizeMembers(ms))
  {
    if ms == [] || Less(m.key, ms[0].key) {
      assert NormalizeMembers([m] + ms) == [Member(m.key, Normalize(m.value))] + NormalizeMembers(ms);
    } else {
      NormalizeInsert(m, ms[1..]);
      var rest := Insert(m, ms[1..]);
      assert ([ms[0]] + rest)[1..] == rest;
      assert NormalizeMembers(ms)[1..] == NormalizeMembers(ms[1..]);
    }
  }

  /** Sorting looks at keys alone, so it commutes with normalizing the values. */
  lemma {:induction false} NormalizeSort(ms: seq<Member>)
    ensures NormalizeMembers(Sort(ms)) == Sort(NormalizeMembers(ms))
  {
    if ms != [] {
      NormalizeSort(ms[1..]);
      NormalizeInsert(ms[0], Sort(ms[1..]));
      assert NormalizeMembers(ms)[1..] == NormalizeMembers(ms[1..]);
    }
  }

  /** `sameJsonValue` is equality of the order-free forms. */
  lemma {:induction false} SameIffNormalized(left: Json, right: Json)
    requires Plain(left) && Plain(right)
    ensures SameJson(left, right) <==> Normalize(left) == Normalize(right)
    decreases left
  {
    if left.Arr? && right.Arr? {
      SameItems(left, right);
    } else if left.Obj? && right.Obj? {
      var l, r := NormalizeMembers(left.members), NormalizeMembers(right.members);
      SortSorted(l);
      SortSorted(r);
      SameElements(Sort(l), l);
      SameElements(Sort(r), r);
      forall x, y | x in left.members && Member(x.key, y) in right.members
        ensures SameJson(x.value, y) <==> Normalize(x.value) == Normalize(y)
      {
        assert Plain(Member(x.key, y).value);
        SameIffNormalized(x.value, y);
      }
      if SameJson(left, right) {
        SameMembersForward(left, right, l, r);
        SortedUnique(Sort(l), Sort(r));
      }
      if Normalize(left) == Normalize(right) {
        SameMembersBackward(left, right, l, r);
      }
    }
  }

  lemma SameItems(left: Json, right: Json)
    requires Plain(left) && Plain(right) && left.Arr? && right.Arr?
    ensures SameJson(left, right) <==> Normalize(left) == Normalize(right)
    decreases left, 0
  {
    if |left.items| == |right.items| {
      forall i | 0 <= i < |left.items|
        ensures SameJson(left.items[i], right.items[i]) <==> Normalize(left.items[i]) == Normalize(right.items[i])
      {
        SameIffNormalized(left.items[i], right.items[i]);
      }
    }
  }

  lemma SameMembersForward(left: Json, right: Json, l: seq<Member>, r: seq<Member>)
    requires left.Obj? && right.Obj? && Plain(left) && Plain(right)
    requires l == NormalizeMembers(left.members) && r == NormalizeMembers(right.members)
    requires SameJson(left, right)
    requires forall x, y | x in left.members && Member(x.key, y) in right.members ::
               SameJson(x.value, y) <==> Normalize(x.value) == Normalize(y)
    ensures forall m :: m in l <==> m in r
  {
    forall i | 0 <= i < |l|
      ensures l[i] in r
    {
      var found := Lookup(right.members, left.members[i].key);
      assert left.members[i] in left.members;
      var j :| 0 <= j < |r| && right.members[j] == Member(left.members[i].key, found.value);
      assert r[j] == l[i];
    }
    CountMembers(l, r);
  }

  /** Lists of equal length with distinct elements: one included in the other means equal sets. */
  lemma {:induction false} CountMembers(l: seq<Member>, r: seq<Member>)
    requires |l| == |r| && DistinctKeys(l)
    requires forall i :: 0 <= i < |l| ==> l[i] in r
    ensures forall m :: m in l <==> m in r
    decreases |l|
  {
    if l != [] {
      var j :| 0 <= j < |r| && r[j] == l[0];
      var rest := r[..j] + r[j + 1..];
      forall i | 0 <= i < |l[1..]|
        ensures l[1..][i] in rest
      {
        var k :| 0 <= k < |r| && r[k] == l[i + 1];
        assert k != j;
        assert rest[if k < j then k else k - 1] == l[i + 1];
      }
      CountMembers(l[1..], rest);
      forall m | m in r
        ensures m in l
      {
        var k :| 0 <= k < |r| && r[k] == m;
        if k != j {
          assert rest[if k < j then k else k - 1] == m;
          assert m in l[1..];
        }
      }
    }
  }

  lemma SameMembersBackward(left: Json, right: Json, l: seq<Member>, r: seq<Member>)
    requires left.Obj? && right.Obj? && Plain(left) && Plain(right)
    requires l == NormalizeMembers(left.members) && r == NormalizeMembers(right.members)
    requires Normalize(left) == Normalize(right)
    requires forall x, y | x in left.members && Member(x.key, y) in right.members ::
               SameJson(x.value, y) <==> Normalize(x.value) == Normalize(y)
    ensures SameJson(left, right)
  {
    assert multiset(l) == multiset(Sort(l)) == multiset(Sort(r)) == multiset(r);
    SameElements(l, r);
    forall i | 0 <= i < |l|
      ensures var found := Lookup(right.members, left.members[i].key);
              found.Some? && SameJson(left.members[i].value, found.value)
    {
      assert l[i] in r;
      var j :| 0 <= j < |r| && r[j] == l[i];
      var m := right.members[j];
      assert m in right.members && m.key == left.members[i].key;
      var found := Lookup(right.members, left.members[i].key);
      var k :| 0 <= k < |r| && right.members[k] == Member(m.key, found.value);
      assert k == j;
      assert left.members[i] in left.members;
    }
  }
}
