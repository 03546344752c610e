/**
 * The string-collection helpers of collections.go: linear searches with an
 * early exit, and the membership tests built on them.
 */
module Collections {

  /** `strings.ToLower` restricted to ASCII: 'A'..'Z' become 'a'..'z'. */
  function LowerChar(c: char): (r: char)
    ensures 'A' <= c <= 'Z' ==> r as int == c as int + 32
    ensures !('A' <= c <= 'Z') ==> r == c
  {
    if 'A' <= c <= 'Z' then (c as int + 32) as char else c
  }

  /** Lower-cases every character of `s`. */
  function Lower(s: string): (r: string)
    ensures |r| == |s|
    ensures forall i :: 0 <= i < |s| ==> r[i] == LowerChar(s[i])
  {
    if s == [] then [] else [LowerChar(s[0])] + Lower(s[1..])
  }

  /** Lower-casing twice is lower-casing once. */
  lemma {:induction false} LowerIdempotent(s: string)
    ensures Lower(Lower(s)) == Lower(s)
  {
    if s != [] {
      LowerIdempotent(s[1..]);
    }
  }

  /** True iff `value` occurs in `collection` up to ASCII case. */
  predicate OccursIgnoreCase(collection: seq<string>, value: string)
  {
    exists i :: 0 <= i < |collection| && Lower(collection[i]) == Lower(value)
  }

  /**
   * The index of the first element equal to `value`, or -1 when `value`
   * does not occur in `collection`.
   */
  method Find(collection: seq<string>, value: string) returns (r: int)
    ensures -1 <= r < |collection|
    ensures r == -1 <==> value !in collection
    ensures 0 <= r ==> collection[r] == value
    ensures 0 <= r ==> forall j :: 0 <= j < r ==> collection[j] != value
  {
    var i := 0;
    while i < |collection|
      invariant 0 <= i <= |collection|
      invariant forall j :: 0 <= j < i ==> collection[j] != value
    {
      if collection[i] == value {
        return i;
      }
      i := i + 1;
    }
    return -1;
  }

  /**
   * The index of the first element whose lower-cased form equals the
   * lower-cased `value`, or -1 when there is none.
   */
  method FindIgnoreCase(collection: seq<string>, value: string) returns (r: int)
    ensures -1 <= r < |collection|
    ensures r == -1 <==> !OccursIgnoreCase(collection, value)
    ensures 0 <= r ==> Lower(collection[r]) == Lower(value)
    ensures 0 <= r ==> forall j :: 0 <= j < r ==> Lower(collection[j]) != Lower(value)
  {
    var lowered := Lower(value);
    var i := 0;
    while i < |collection|
      invariant 0 <= i <= |collection|
      invariant forall j :: 0 <= j < i ==> Lower(collection[j]) != lowered
    {
      if Lower(collection[i]) == lowered {
        return i;
      }
      i := i + 1;
    }
    return -1;
  }

  /** Whether `value` occurs in `collection`. */
  method Contains(collection: seq<string>, value: string) returns (b: bool)
    ensures b <==> value in collection
  {
    var i := Find(collection, value);
    b := i != -1;
  }

  /** Whether `value` occurs in `collection`, ignoring ASCII case. */
  method ContainsIgnoreCase(collection: seq<string>, value: string) returns (b: bool)
    ensures b <==> OccursIgnoreCase(collection, value)
  {
    var i := FindIgnoreCase(collection, value);
    b := i != -1;
  }

  /** An exact occurrence is also an occurrence up to case. */
  lemma ContainsImpliesContainsIgnoreCase(collection: seq<string>, value: string)
    requires value in collection
    ensures OccursIgnoreCase(collection, value)
  {
    var i :| 0 <= i < |collection| && collection[i] == value;
    assert Lower(collection[i]) == Lower(value);
  }

  /** Searching for a value that differs only in ASCII case finds the same element. */
  lemma {:induction false} OccursIgnoreCaseOfLowered(collection: seq<string>, value: string)
    ensures OccursIgnoreCase(collection, Lower(value)) == OccursIgnoreCase(collection, value)
  {
    LowerIdempotent(value);
  }
}
