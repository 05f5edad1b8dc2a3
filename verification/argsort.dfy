/** Sorting by key through an index permutation, the way an argsort is used:
    compute the order once, then gather every column through it. */
module ArgSort {

  /** The identity order 0, 1, ..., n - 1. */
  function Range(n: nat): (r: seq<nat>)
    ensures |r| == n
    ensures forall i | 0 <= i < n :: r[i] == i
  {
    seq(n, i requires 0 <= i < n => i)
  }

  predicate InRange(inds: seq<nat>, n: nat) {
    forall i | 0 <= i < |inds| :: inds[i] < n
  }

  /** `inds` lists every index below n exactly once. */
  predicate IsPermutation(inds: seq<nat>, n: nat) {
    InRange(inds, n) && multiset(inds) == multiset(Range(n))
  }

  /** The keys read through `inds` never decrease. */
  predicate SortedBy(key: seq<real>, inds: seq<nat>)
    requires InRange(inds, |key|)
  {
    forall i | 0 <= i < |inds| - 1 :: key[inds[i]] <= key[inds[i + 1]]
  }

  /** Inserts index i into the sorted order `xs`, before the first index
      whose key is at least key[i]. */
  function Insert(key: seq<real>, i: nat, xs: seq<nat>): (r: seq<nat>)
    requires i < |key| && InRange(xs, |key|) && SortedBy(key, xs)
    ensures InRange(r, |key|) && SortedBy(key, r)
    ensures multiset(r) == multiset(xs) + multiset{i}
    ensures |r| > 0 && (r[0] == i || (|xs| > 0 && r[0] == xs[0]))
    decreases |xs|
  {
    if |xs| == 0 || key[i] <= key[xs[0]] then
      [i] + xs
    else
      assert xs == [xs[0]] + xs[1..];
      [xs[0]] + Insert(key, i, xs[1..])
  }

  /** An order of the first n indices that sorts them by key. */
  function SortPrefix(key: seq<real>, n: nat): (r: seq<nat>)
    requires n <= |key|
    ensures IsPermutation(r, n) && SortedBy(key, r)
  {
    if n == 0 then
      []
    else
      var r := Insert(key, n - 1, SortPrefix(key, n - 1));
      assert Range(n) == Range(n - 1) + [n - 1];
      MultisetBound(r, n);
      r
  }

  /** An order listing exactly the indices below n stays below n. */
  lemma MultisetBound(inds: seq<nat>, n: nat)
    requires multiset(inds) == multiset(Range(n))
    ensures InRange(inds, n)
  {
    forall i | 0 <= i < |inds|
      ensures inds[i] < n
    {
      assert inds[i] in multiset(Range(n));
    }
  }

  /** An order of all indices of `key` under which the keys never
      decrease. Ties may come out in any order. */
  function Argsort(key: seq<real>): (inds: seq<nat>)
    ensures |inds| == |key|
    ensures IsPermutation(inds, |key|) && SortedBy(key, inds)
  {
    PermutationLength(SortPrefix(key, |key|), |key|);
    SortPrefix(key, |key|)
  }

  lemma PermutationLength(inds: seq<nat>, n: nat)
    requires multiset(inds) == multiset(Range(n))
    ensures |inds| == n
  {
    assert |multiset(inds)| == |inds|;
    assert |multiset(Range(n))| == n;
  }

  /** Reads `s` through the index order `inds`. */
  function Gather<T>(s: seq<T>, inds: seq<nat>): (r: seq<T>)
    requires InRange(inds, |s|)
    ensures |r| == |inds|
    ensures forall i | 0 <= i < |inds| :: r[i] == s[inds[i]]
  {
    seq(|inds|, i requires 0 <= i < |inds| => s[inds[i]])
  }

  /** Reading through a permutation of the indices yields a permutation of
      the elements: nothing is lost, duplicated or altered. */
  lemma GatherPermutation<T>(s: seq<T>, inds: seq<nat>)
    requires IsPermutation(inds, |s|)
    ensures multiset(Gather(s, inds)) == multiset(s)
  {
    GatherSameIndices(s, inds, Range(|s|));
    assert Gather(s, Range(|s|)) == s;
  }

  /** Two index orders that list the same indices gather the same
      elements. */
  lemma {:induction false} GatherSameIndices<T>(s: seq<T>, ix: seq<nat>, jx: seq<nat>)
    requires InRange(ix, |s|) && InRange(jx, |s|)
    requires multiset(ix) == multiset(jx)
    ensures multiset(Gather(s, ix)) == multiset(Gather(s, jx))
    decreases |ix|
  {
    if |ix| == 0 {
      assert |multiset(jx)| == 0;
      assert jx == [];
    } else {
      var x := ix[0];
      assert x in multiset(jx);
      var k :| 0 <= k < |jx| && jx[k] == x;
      var rest := jx[..k] + jx[k + 1..];
      GatherRemove(s, ix, 0);
      GatherRemove(s, jx, k);
      assert ix[..0] + ix[1..] == ix[1..];
      GatherSameIndices(s, ix[1..], rest);
      assert Gather(s, ix)[0] == s[x] && Gather(s, jx)[k] == s[x];
      SameAfterRemoval(multiset(Gather(s, ix)), multiset(Gather(s, jx)), s[x]);
    }
  }

  /** Removing position k from an index order removes one copy of its
      index, and one copy of the element it gathers. */
  lemma GatherRemove<T>(s: seq<T>, ix: seq<nat>, k: nat)
    requires InRange(ix, |s|) && k < |ix|
    ensures InRange(ix[..k] + ix[k + 1..], |s|)
    ensures multiset(ix[..k] + ix[k + 1..]) == multiset(ix) - multiset{ix[k]}
    ensures multiset(Gather(s, ix[..k] + ix[k + 1..])) == multiset(Gather(s, ix)) - multiset{s[ix[k]]}
  {
    var before, after := ix[..k], ix[k + 1..];
    assert ix == before + [ix[k]] + after;
    assert multiset(ix) == multiset(before) + multiset{ix[k]} + multiset(after);
    GatherConcat(s, before + [ix[k]], after);
    GatherConcat(s, before, [ix[k]]);
    GatherConcat(s, before, after);
    assert Gather(s, [ix[k]]) == [s[ix[k]]];
    assert multiset(Gather(s, ix)) == multiset(Gather(s, before)) + multiset{s[ix[k]]} + multiset(Gather(s, after));
  }

  lemma SameAfterRemoval<T>(a: multiset<T>, b: multiset<T>, x: T)
    requires x in a && x in b && a - multiset{x} == b - multiset{x}
    ensures a == b
  {
    assert a == (a - multiset{x}) + multiset{x};
    assert b == (b - multiset{x}) + multiset{x};
  }

  lemma GatherConcat<T>(s: seq<T>, a: seq<nat>, b: seq<nat>)
    requires InRange(a, |s|) && InRange(b, |s|)
    ensures InRange(a + b, |s|)
    ensures Gather(s, a + b) == Gather(s, a) + Gather(s, b)
  {
  }
}
