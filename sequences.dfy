/** Generic sequence helpers: duplicate removal (the key list of a group-by)
    and the order-preserving subsequence relation (the result of a row filter). */
module Sequences {

  predicate NoDuplicates<T(==)>(s: seq<T>) {
    forall i, j :: 0 <= i < j < |s| ==> s[i] != s[j]
  }

  /** The distinct elements of `xs`, each once, in order of first occurrence. */
  function Distinct<T(==,!new)>(xs: seq<T>): (r: seq<T>)
    ensures forall x :: x in r <==> x in xs
    ensures NoDuplicates(r)
    ensures |r| <= |xs|
    // its order is stated by DistinctInFirstOccurrenceOrder
  {
    if xs == [] then []
    else
      var d := Distinct(xs[..|xs| - 1]);
      var x := xs[|xs| - 1];
      assert xs == xs[..|xs| - 1] + [x];
      if x in d then d else d + [x]
  }

  /** The elements of `r` appear in the order in which each first occurs in
      `xs`: every occurrence of a later element comes after some occurrence of
      each earlier one. */
  predicate FirstOccurrenceOrder<T(==)>(r: seq<T>, xs: seq<T>) {
    forall i, j, k :: 0 <= i < j < |r| && 0 <= k < |xs| && xs[k] == r[j] ==> r[i] in xs[..k]
  }

  lemma {:induction false} DistinctInFirstOccurrenceOrder<T(!new)>(xs: seq<T>)
    ensures FirstOccurrenceOrder(Distinct(xs), xs)
  {
    if xs != [] {
      var n := |xs|;
      var init, x := xs[..n - 1], xs[n - 1];
      var d := Distinct(init);
      var r := Distinct(xs);
      DistinctInFirstOccurrenceOrder(init);
      assert r == if x in d then d else d + [x];
      forall i, j, k | 0 <= i < j < |r| && 0 <= k < |xs| && xs[k] == r[j]
        ensures r[i] in xs[..k]
      {
        assert r[i] == d[i];
        if k < n - 1 {
          assert xs[k] == init[k] && init[..k] == xs[..k];
          assert r[j] == d[j];
        } else {
          assert d[i] in init && init == xs[..k];
        }
      }
    }
  }

  /** `a` can be obtained from `b` by deleting elements, keeping the order of the rest. */
  predicate IsSubsequence<T(==)>(a: seq<T>, b: seq<T>)
    decreases |b|
  {
    if a == [] then true
    else if b == [] then false
    else (a[|a| - 1] == b[|b| - 1] && IsSubsequence(a[..|a| - 1], b[..|b| - 1]))
         || IsSubsequence(a, b[..|b| - 1])
  }
}
