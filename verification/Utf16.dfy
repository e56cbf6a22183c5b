/**
  JavaScript strings: sequences of UTF-16 code units.  Dafny's `char` leaves the
  surrogates out, so a code unit is a 16-bit integer here.
 */
module Utf16 {

  type CodeUnit = c: int | 0 <= c < 0x1_0000

  type Text = seq<CodeUnit>

  function Ascii(s: string): (t: Text)
    requires forall i :: 0 <= i < |s| ==> s[i] as int < 128
    ensures |t| == |s|
  {
    seq<CodeUnit>(|s|, i requires 0 <= i < |s| => s[i] as int)
  }

  predicate IsHigh(c: CodeUnit) {
    0xD800 <= c <= 0xDBFF
  }

  predicate IsLow(c: CodeUnit) {
    0xDC00 <= c <= 0xDFFF
  }

  /** Every high surrogate is followed by a low one and every low one follows a high one. */
  predicate WellPaired(s: Text) {
    && (forall i :: 0 <= i < |s| && IsHigh(s[i]) ==> i + 1 < |s| && IsLow(s[i + 1]))
    && (forall i :: 0 <= i < |s| && IsLow(s[i]) ==> 0 < i && IsHigh(s[i - 1]))
  }

  /** `hasLoneSurrogate`: one pass that jumps over pairs finds exactly the badly paired strings. */
  method HasLoneSurrogate(value: Text) returns (lone: bool)
    ensures lone <==> !WellPaired(value)
  {
    var index := 0;
    while index < |value|
      invariant 0 <= index <= |value|
      invariant forall i :: 0 <= i < index && IsHigh(value[i]) ==> i + 1 < |value| && IsLow(value[i + 1])
      invariant forall i :: 0 <= i < index && IsLow(value[i]) ==> 0 < i && IsHigh(value[i - 1])
      invariant 0 < index ==> !IsHigh(value[index - 1])
    {
      if IsHigh(value[index]) {
        if index + 1 == |value| || !IsLow(value[index + 1]) {
          return true;
        }
        index := index + 1;
      } else if IsLow(value[index]) {
        return true;
      }
      index := index + 1;
    }
    return false;
  }

  /** The order of `compareUtf16`: code unit by code unit, a proper prefix first. */
  predicate Less(a: Text, b: Text) {
    if b == [] then false
    else if a == [] then true
    else if a[0] != b[0] then a[0] < b[0]
    else Less(a[1..], b[1..])
  }

  lemma {:induction false} LessIrreflexive(a: Text)
    ensures !Less(a, a)
  {
    if a != [] {
      LessIrreflexive(a[1..]);
    }
  }

  lemma {:induction false} LessTransitive(a: Text, b: Text, c: Text)
    requires Less(a, b) && Less(b, c)
    ensures Less(a, c)
  {
    if a != [] && a[0] == b[0] == c[0] {
      LessTransitive(a[1..], b[1..], c[1..]);
    }
  }

  lemma {:induction false} LessTotal(a: Text, b: Text)
    ensures Less(a, b) || a == b || Less(b, a)
  {
    if a != [] && b != [] && a[0] == b[0] {
      LessTotal(a[1..], b[1..]);
      assert a == [a[0]] + a[1..] && b == [b[0]] + b[1..];
    }
  }
}
