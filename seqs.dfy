/** Order-preserving selection and mapping over sequences, the shape of the scripts' `append` loops. */
module Seqs {

  /** The elements of `s` that satisfy `p`, in their order in `s`. */
  function Filter<T>(s: seq<T>, p: T -> bool): (r: seq<T>)
    ensures |r| <= |s|
    decreases |s|
  {
    if s == [] then [] else Filter(s[..|s| - 1], p) + (if p(s[|s| - 1]) then [s[|s| - 1]] else [])
  }

  /** `f` applied to every element of `s`. */
  function Map<T, U>(s: seq<T>, f: T -> U): (r: seq<U>)
    ensures |r| == |s|
    ensures forall i :: 0 <= i < |s| ==> r[i] == f(s[i])
  {
    seq(|s|, i requires 0 <= i < |s| => f(s[i]))
  }

  lemma FilterSnoc<T>(s: seq<T>, x: T, p: T -> bool)
    ensures Filter(s + [x], p) == Filter(s, p) + (if p(x) then [x] else [])
  {
    assert (s + [x])[..|s|] == s;
  }

  lemma MapSnoc<T, U>(s: seq<T>, x: T, f: T -> U)
    ensures Map(s + [x], f) == Map(s, f) + [f(x)]
  {
  }

  /** An element is selected exactly when it occurs in `s` and satisfies `p`. */
  lemma {:induction false} FilterMembership<T>(s: seq<T>, p: T -> bool, x: T)
    ensures x in Filter(s, p) <==> x in s && p(x)
    decreases |s|
  {
    if s != [] {
      var init := s[..|s| - 1];
      FilterMembership(init, p, x);
      assert s == init + [s[|s| - 1]];
    }
  }

  /** Two complementary selections together hold every element of `s`, each exactly once. */
  lemma {:induction false} FilterComplement<T>(s: seq<T>, p: T -> bool, q: T -> bool)
    requires forall x :: q(x) == !p(x)
    ensures multiset(Filter(s, p)) + multiset(Filter(s, q)) == multiset(s)
    ensures |Filter(s, p)| + |Filter(s, q)| == |s|
    decreases |s|
  {
    if s != [] {
      var init := s[..|s| - 1];
      var x := s[|s| - 1];
      FilterComplement(init, p, q);
      assert s == init + [x];
      FilterSnoc(init, x, p);
      FilterSnoc(init, x, q);
      assert q(x) == !p(x);
      ComplementStep(Filter(init, p), Filter(init, q), x, p(x));
    }
  }

  /** Appending `x` to exactly one of two selections adds `x` once to them together. */
  lemma ComplementStep<T>(a: seq<T>, b: seq<T>, x: T, first: bool)
    ensures multiset(a + (if first then [x] else [])) + multiset(b + (if !first then [x] else [])) ==
            multiset(a) + multiset(b) + multiset{x}
    ensures |a + (if first then [x] else [])| + |b + (if !first then [x] else [])| == |a| + |b| + 1
  {
    if first {
      assert b + [] == b;
    } else {
      assert a + [] == a;
    }
  }

  /** The positions of `s` whose element satisfies `p`, ascending. */
  function FilterIndices<T>(s: seq<T>, p: T -> bool): (r: seq<nat>)
    ensures |r| == |Filter(s, p)|
    decreases |s|
  {
    if s == [] then [] else FilterIndices(s[..|s| - 1], p) + (if p(s[|s| - 1]) then [|s| - 1] else [])
  }

  /** `Filter(s, p)` is the subsequence of `s` taken at strictly increasing positions, and
      those positions are exactly the ones whose element satisfies `p`. */
  lemma FilterKeepsOrder<T>(s: seq<T>, p: T -> bool)
    ensures |FilterIndices(s, p)| == |Filter(s, p)|
    ensures forall k :: 0 <= k < |Filter(s, p)| ==>
              FilterIndices(s, p)[k] < |s| && Filter(s, p)[k] == s[FilterIndices(s, p)[k]]
    ensures forall k, l :: 0 <= k < l < |Filter(s, p)| ==> FilterIndices(s, p)[k] < FilterIndices(s, p)[l]
    ensures forall i :: 0 <= i < |s| && p(s[i]) ==> i in FilterIndices(s, p)
  {
    FilterIndicesPick(s, p);
    FilterIndicesAscending(s, p);
    FilterIndicesComplete(s, p);
  }

  /** The `k`-th selected element sits at the `k`-th selected position. */
  lemma {:induction false} FilterIndicesPick<T>(s: seq<T>, p: T -> bool)
    ensures forall k :: 0 <= k < |Filter(s, p)| ==>
              FilterIndices(s, p)[k] < |s| && Filter(s, p)[k] == s[FilterIndices(s, p)[k]]
    decreases |s|
  {
    if s != [] {
      var init := s[..|s| - 1];
      FilterIndicesPick(init, p);
      forall k | 0 <= k < |Filter(init, p)| ensures s[FilterIndices(init, p)[k]] == init[FilterIndices(init, p)[k]] { }
    }
  }

  /** The selected positions are strictly increasing, and all below `|s|`. */
  lemma {:induction false} FilterIndicesAscending<T>(s: seq<T>, p: T -> bool)
    ensures forall k :: 0 <= k < |FilterIndices(s, p)| ==> FilterIndices(s, p)[k] < |s|
    ensures forall k, l :: 0 <= k < l < |Filter(s, p)| ==> FilterIndices(s, p)[k] < FilterIndices(s, p)[l]
    decreases |s|
  {
    if s != [] {
      FilterIndicesAscending(s[..|s| - 1], p);
    }
  }

  /** Every position whose element satisfies `p` is selected. */
  lemma {:induction false} FilterIndicesComplete<T>(s: seq<T>, p: T -> bool)
    ensures forall i :: 0 <= i < |s| && p(s[i]) ==> i in FilterIndices(s, p)
    decreases |s|
  {
    if s != [] {
      var init := s[..|s| - 1];
      FilterIndicesComplete(init, p);
      forall i | 0 <= i < |s| && p(s[i]) ensures i in FilterIndices(s, p) {
        if i < |s| - 1 {
          assert s[i] == init[i];
        }
      }
    }
  }
}
