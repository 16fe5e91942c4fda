/** Sequence operations shared by the form model and the prompt compiler. */
module Seqs {

  /** JavaScript `xs.filter(p)`: the elements satisfying `p`, in their original order. */
  function Filter<T(!new)>(xs: seq<T>, p: T -> bool): (r: seq<T>)
    ensures |r| <= |xs|
  {
    if |xs| == 0 then []
    else if p(xs[0]) then [xs[0]] + Filter(xs[1..], p)
    else Filter(xs[1..], p)
  }

  /** The filter keeps exactly the elements that satisfy the predicate. */
  lemma {:induction false} FilterMembership<T(!new)>(xs: seq<T>, p: T -> bool, x: T)
    ensures x in Filter(xs, p) <==> x in xs && p(x)
  {
    if |xs| > 0 {
      FilterMembership(xs[1..], p, x);
      assert xs == [xs[0]] + xs[1..];
    }
  }

  /** `a` can be obtained from `b` by deleting elements: `a` keeps `b`'s relative order. */
  predicate IsSubsequence<T(==)>(a: seq<T>, b: seq<T>)
    decreases |b|
  {
    || |a| == 0
    || (|b| > 0 && ((a[0] == b[0] && IsSubsequence(a[1..], b[1..])) || IsSubsequence(a, b[1..])))
  }

  lemma {:induction false} FilterIsSubsequence<T(!new)>(xs: seq<T>, p: T -> bool)
    ensures IsSubsequence(Filter(xs, p), xs)
  {
    if |xs| > 0 {
      FilterIsSubsequence(xs[1..], p);
      if p(xs[0]) {
        assert ([xs[0]] + Filter(xs[1..], p))[1..] == Filter(xs[1..], p);
      }
    }
  }

  /** Filtering distributes over concatenation. */
  lemma {:induction false} FilterAppend<T(!new)>(a: seq<T>, b: seq<T>, p: T -> bool)
    ensures Filter(a + b, p) == Filter(a, p) + Filter(b, p)
  {
    if |a| == 0 {
      assert a + b == b;
    } else {
      assert (a + b)[0] == a[0];
      assert (a + b)[1..] == a[1..] + b;
      FilterAppend(a[1..], b, p);
    }
  }

  /** Filters that agree on the elements of `xs` select the same subsequence. */
  lemma {:induction false} FilterCongruent<T(!new)>(xs: seq<T>, p: T -> bool, q: T -> bool)
    requires forall i :: 0 <= i < |xs| ==> p(xs[i]) == q(xs[i])
    ensures Filter(xs, p) == Filter(xs, q)
  {
    if |xs| > 0 {
      assert forall i :: 0 <= i < |xs[1..]| ==> xs[1..][i] == xs[i + 1];
      FilterCongruent(xs[1..], p, q);
    }
  }

  /** Filtering splits around a middle element. */
  lemma FilterAround<T(!new)>(a: seq<T>, x: T, b: seq<T>, p: T -> bool)
    ensures Filter(a + [x] + b, p) == Filter(a, p) + Filter([x], p) + Filter(b, p)
  {
    FilterAppend(a + [x], b, p);
    FilterAppend(a, [x], p);
  }

  /** Filtering splits around any position: what precedes it, the element, and what follows it. */
  lemma FilterSplitAt<T(!new)>(xs: seq<T>, k: nat, p: T -> bool)
    requires k < |xs|
    ensures Filter(xs, p) == Filter(xs[..k], p) + Filter([xs[k]], p) + Filter(xs[k + 1..], p)
  {
    SplitAt(xs, k);
    FilterAround(xs[..k], xs[k], xs[k + 1..], p);
  }

  /** A sequence is what precedes a position, the element there, and what follows it. */
  lemma SplitAt<T>(xs: seq<T>, k: nat)
    requires k < |xs|
    ensures xs == xs[..k] + [xs[k]] + xs[k + 1..]
  {
    assert xs[k..] == [xs[k]] + xs[k + 1..];
    assert xs == xs[..k] + xs[k..];
  }

  /** A one-element sequence is kept whole or dropped whole. */
  lemma FilterSingleton<T(!new)>(x: T, p: T -> bool)
    ensures Filter([x], p) == if p(x) then [x] else []
  {
    assert [x][1..] == [];
  }

  /** A filter every element passes keeps the whole sequence. */
  lemma {:induction false} FilterKeepsAll<T(!new)>(xs: seq<T>, p: T -> bool)
    requires forall i :: 0 <= i < |xs| ==> p(xs[i])
    ensures Filter(xs, p) == xs
  {
    if |xs| > 0 {
      assert forall i :: 0 <= i < |xs[1..]| ==> xs[1..][i] == xs[i + 1];
      FilterKeepsAll(xs[1..], p);
      assert xs == [xs[0]] + xs[1..];
    }
  }

  /** A filter no element passes keeps nothing. */
  lemma {:induction false} FilterKeepsNone<T(!new)>(xs: seq<T>, p: T -> bool)
    requires forall i :: 0 <= i < |xs| ==> !p(xs[i])
    ensures Filter(xs, p) == []
  {
    if |xs| > 0 {
      assert forall i :: 0 <= i < |xs[1..]| ==> xs[1..][i] == xs[i + 1];
      FilterKeepsNone(xs[1..], p);
    }
  }

  /** Filtering a run that fails between two runs that pass removes exactly the middle run. */
  lemma FilterDropsMiddle<T(!new)>(a: seq<T>, b: seq<T>, c: seq<T>, p: T -> bool)
    requires forall i :: 0 <= i < |a| ==> p(a[i])
    requires forall i :: 0 <= i < |b| ==> !p(b[i])
    requires forall i :: 0 <= i < |c| ==> p(c[i])
    ensures Filter(a + b + c, p) == a + c
  {
    FilterKeepsAll(a, p);
    FilterKeepsNone(b, p);
    FilterKeepsAll(c, p);
    FilterAppend(a + b, c, p);
    FilterAppend(a, b, p);
    assert Filter(a + b, p) == a;
  }

  /** JavaScript `xs.map(g)`. */
  function Map<T, U>(xs: seq<T>, g: T -> U): (r: seq<U>)
    ensures |r| == |xs|
    ensures forall i :: 0 <= i < |xs| ==> r[i] == g(xs[i])
  {
    if |xs| == 0 then [] else [g(xs[0])] + Map(xs[1..], g)
  }

  /** A sequence is strictly increasing under `key`: elements appear in key order, none twice. */
  predicate StrictlyIncreasing<T>(xs: seq<T>, key: T -> int) {
    forall i, j :: 0 <= i < j < |xs| ==> key(xs[i]) < key(xs[j])
  }

  /** Filtering keeps a strictly increasing sequence strictly increasing. */
  lemma {:induction false} FilterKeepsOrder<T(!new)>(xs: seq<T>, p: T -> bool, key: T -> int)
    requires StrictlyIncreasing(xs, key)
    ensures StrictlyIncreasing(Filter(xs, p), key)
  {
    if |xs| > 0 {
      assert StrictlyIncreasing(xs[1..], key) by {
        forall i, j | 0 <= i < j < |xs[1..]|
          ensures key(xs[1..][i]) < key(xs[1..][j])
        {
          assert xs[1..][i] == xs[i + 1] && xs[1..][j] == xs[j + 1];
        }
      }
      FilterKeepsOrder(xs[1..], p, key);
      var r := Filter(xs[1..], p);
      if p(xs[0]) {
        forall j | 0 < j < |[xs[0]] + r|
          ensures key(xs[0]) < key(([xs[0]] + r)[j])
        {
          FilterMembership(xs[1..], p, r[j - 1]);
          var k :| 0 <= k < |xs[1..]| && xs[1..][k] == r[j - 1];
          assert xs[1..][k] == xs[k + 1];
        }
      }
    }
  }

  /** Removes every occurrence of `v` (JavaScript `xs.filter(item => item !== v)`). */
  function RemoveAll<T(==,!new)>(xs: seq<T>, v: T): (r: seq<T>)
    ensures v !in r
    ensures forall u :: u != v ==> multiset(r)[u] == multiset(xs)[u]
    ensures IsSubsequence(r, xs)
  {
    var r := Filter(xs, u => u != v);
    FilterMembership(xs, u => u != v, v);
    FilterIsSubsequence(xs, u => u != v);
    RemoveAllCounts(xs, v);
    r
  }

  lemma {:induction false} RemoveAllCounts<T(!new)>(xs: seq<T>, v: T)
    ensures forall u :: u != v ==> multiset(Filter(xs, x => x != v))[u] == multiset(xs)[u]
  {
    if |xs| > 0 {
      RemoveAllCounts(xs[1..], v);
      assert xs == [xs[0]] + xs[1..];
      assert multiset(xs) == multiset{xs[0]} + multiset(xs[1..]);
    }
  }

  /** No element occurs twice. */
  predicate NoDuplicates<T(==)>(xs: seq<T>) {
    forall i, j :: 0 <= i < j < |xs| ==> xs[i] != xs[j]
  }
}
