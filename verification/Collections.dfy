/** Counting facts about finite collections, shared by the models below. */
module Collections {

  ghost predicate Distinct<T>(xs: seq<T>) {
    forall i, j :: 0 <= i < j < |xs| ==> xs[i] != xs[j]
  }

  /** Distinct elements of a set are no more than the set holds. */
  lemma {:induction false} Pigeonhole<T>(xs: seq<T>, s: set<T>)
    requires Distinct(xs)
    requires forall i :: 0 <= i < |xs| ==> xs[i] in s
    ensures |xs| <= |s|
  {
    if xs != [] {
      var n := |xs| - 1;
      Pigeonhole(xs[..n], s - {xs[n]});
    }
  }

  lemma AppendNext<T>(before: seq<T>, xs: seq<T>, j: nat)
    requires j < |xs|
    ensures before + xs[..j + 1] == before + xs[..j] + [xs[j]]
  {
  }

  lemma InitOfSnoc<T>(xs: seq<T>, x: T)
    ensures (xs + [x])[..|xs|] == xs && (xs + [x])[|xs|] == x
  {
  }

  lemma TakeTake<T>(xs: seq<T>, n: nat)
    requires n < |xs|
    ensures xs[..|xs| - 1][..n] == xs[..n]
  {
  }

  lemma TakeAll<T>(xs: seq<T>)
    ensures xs[..|xs|] == xs
  {
  }

  lemma RemoveAt<T>(xs: seq<T>, k: nat)
    requires k < |xs|
    ensures multiset(xs[..k] + xs[k + 1..]) == multiset(xs) - multiset{xs[k]}
  {
    assert xs == xs[..k] + ([xs[k]] + xs[k + 1..]);
  }

  /** Where a permutation keeps the last element, and what is left without it. */
  lemma MatchLast<T>(xs: seq<T>, perm: seq<T>) returns (k: nat)
    requires xs != [] && multiset(xs) == multiset(perm)
    ensures k < |perm| && perm[k] == xs[|xs| - 1]
    ensures multiset(xs[..|xs| - 1]) == multiset(perm[..k] + perm[k + 1..])
  {
    var n := |xs| - 1;
    assert xs == xs[..n] + [xs[n]];
    assert xs[n] in multiset(perm);
    k :| 0 <= k < |perm| && perm[k] == xs[n];
    RemoveAt(perm, k);
    assert multiset(xs) - multiset{xs[n]} == multiset(xs[..n]);
  }
}
