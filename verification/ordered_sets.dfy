/**
 * `NSOrderedSet(array:)`, built by keeping the first occurrence of each
 * element. The contracts state that no element repeats and none is gained or
 * lost, and that an array of distinct elements passes through unchanged.
 */
module OrderedSets {

  predicate Distinct<T(==,!new)>(s: seq<T>)
  {
    forall i, j :: 0 <= i < j < |s| ==> s[i] != s[j]
  }

  /** The ordered set built from an array: no element twice, nothing new, nothing lost. */
  function FromArray<T(==,!new)>(s: seq<T>): (r: seq<T>)
    ensures |r| <= |s|
    ensures forall x :: x in r <==> x in s
    ensures Distinct(r)
  {
    if s == [] then []
    else
      var prefix := FromArray(s[..|s| - 1]);
      if s[|s| - 1] in prefix then prefix else prefix + [s[|s| - 1]]
  }

  /** An array of distinct elements becomes an ordered set with the same elements in the same order. */
  lemma {:induction false} FromArrayOfDistinct<T(!new)>(s: seq<T>)
    requires Distinct(s)
    ensures FromArray(s) == s
  {
    if s != [] {
      var init := s[..|s| - 1];
      assert Distinct(init);
      FromArrayOfDistinct(init);
      assert s[|s| - 1] !in init;
      assert init + [s[|s| - 1]] == s;
    }
  }
}
