/** Sequences of distinct indices. */
module Permutations {

  ghost predicate Distinct<T>(s: seq<T>) {
    forall i, j :: 0 <= i < j < |s| ==> s[i] != s[j]
  }

  ghost predicate Permutation(p: seq<nat>, n: nat) {
    |p| == n && Distinct(p) && forall k :: 0 <= k < n ==> p[k] < n
  }

  function Below(n: nat): (s: set<nat>)
    ensures |s| == n && forall i: nat :: i in s <==> i < n
  {
    if n == 0 then {} else Below(n - 1) + {n - 1}
  }

  ghost function Elements<T>(s: seq<T>): set<T> {
    set x | x in s
  }

  lemma {:induction false} DistinctCount<T>(s: seq<T>)
    requires Distinct(s)
    ensures |Elements(s)| == |s|
  {
    if s != [] {
      var shorter := s[..|s| - 1];
      DistinctCount(shorter);
      assert Elements(s) == Elements(shorter) + {s[|s| - 1]};
    }
  }

  lemma SubsetSize<T>(a: set<T>, b: set<T>)
    requires a <= b
    ensures |a| <= |b| && (|a| == |b| ==> a == b)
  {
    assert |b| == |a| + |b - a|;
    assert a == b - (b - a);
  }

  /** Distinct indices below `n` are at most `n` many, and `n` of them are all of them. */
  lemma DistinctIndices(p: seq<nat>, n: nat)
    requires Distinct(p) && forall k :: 0 <= k < |p| ==> p[k] < n
    ensures |p| <= n
    ensures |p| == n ==> forall i: nat :: i < n ==> i in p
  {
    DistinctCount(p);
    SubsetSize(Elements(p), Below(n));
    if |p| == n {
      forall i: nat | i < n ensures i in p {
        assert i in Below(n) && i in Elements(p);
      }
    }
  }

  lemma PermutationCovers(p: seq<nat>, n: nat, i: nat)
    requires Permutation(p, n) && i < n
    ensures i in p
  {
    DistinctIndices(p, n);
  }

  lemma {:induction false} ElementsAtMost<T>(s: seq<T>)
    ensures |Elements(s)| <= |s|
  {
    if s != [] {
      var shorter := s[..|s| - 1];
      ElementsAtMost(shorter);
      assert Elements(s) == Elements(shorter) + {s[|s| - 1]};
    }
  }

  lemma MissingIndex(p: seq<nat>, n: nat) returns (i: nat)
    requires |p| < n
    ensures i < n && i !in p
  {
    ElementsAtMost(p);
    var all, used := Below(n), Elements(p);
    SubsetSize(all * used, used);
    assert |all| == |all * used| + |all - used|;
    i :| i in all - used;
  }
}
