/** Order-preserving selection and element-wise mapping over sequences, the
    two shapes the converter's `for ... append` loops take. Both recurse on
    the last element, the order in which the loops append. */
module Seqs {

  /** The elements of `s` that satisfy `p`, in their order in `s`. */
  function Filter<T>(s: seq<T>, p: T -> bool): (r: seq<T>)
    ensures |r| <= |s|
    decreases |s|
  {
    if |s| == 0 then []
    else
      var r := Filter(s[..|s| - 1], p);
      if p(s[|s| - 1]) then r + [s[|s| - 1]] else r
  }

  /** Appending one element extends the selection by that element exactly when it qualifies. */
  lemma FilterAppend<T>(s: seq<T>, x: T, p: T -> bool)
    ensures Filter(s + [x], p) == if p(x) then Filter(s, p) + [x] else Filter(s, p)
  {
  }

  /** The negation of a predicate, for the `else` branch of a split. */
  function Not<T>(p: T -> bool): T -> bool
  {
    x => !p(x)
  }

  /** `f` applied to every element of `s`. */
  function Map<T, U>(s: seq<T>, f: T -> U): (r: seq<U>)
    ensures |r| == |s|
    ensures forall i :: 0 <= i < |s| ==> r[i] == f(s[i])
    decreases |s|
  {
    if |s| == 0 then [] else Map(s[..|s| - 1], f) + [f(s[|s| - 1])]
  }

  /** The indices of `s` whose elements satisfy `p`, ascending. */
  function Positions<T>(s: seq<T>, p: T -> bool): (r: seq<int>)
    ensures forall k :: 0 <= k < |r| ==> 0 <= r[k] < |s| && p(s[r[k]])
    ensures forall i :: 0 <= i < |s| && p(s[i]) ==> i in r
    ensures forall k, l :: 0 <= k < l < |r| ==> r[k] < r[l]
    decreases |s|
  {
    if |s| == 0 then []
    else
      var r := Positions(s[..|s| - 1], p);
      if p(s[|s| - 1]) then r + [|s| - 1] else r
  }

  /** `idx` picks the elements of `r` out of `s` at strictly increasing positions. */
  ghost predicate Embedding<T>(r: seq<T>, s: seq<T>, idx: seq<int>)
  {
    && |idx| == |r|
    && (forall k :: 0 <= k < |idx| ==> 0 <= idx[k] < |s| && r[k] == s[idx[k]])
    && (forall k, l :: 0 <= k < l < |idx| ==> idx[k] < idx[l])
  }

  /** Filter keeps exactly the satisfying elements and keeps them in order:
      its k-th element is the element at the k-th satisfying position. */
  lemma {:induction false} FilterIsOrderedSelection<T>(s: seq<T>, p: T -> bool)
    ensures Embedding(Filter(s, p), s, Positions(s, p))
    decreases |s|
  {
    if |s| > 0 {
      var init := s[..|s| - 1];
      FilterIsOrderedSelection(init, p);
      var r, idx := Filter(init, p), Positions(init, p);
      forall k | 0 <= k < |idx|
        ensures s[idx[k]] == init[idx[k]]
      {
      }
    }
  }

  /** Membership in a filtered sequence, both directions. */
  lemma {:induction false} FilterMember<T>(s: seq<T>, p: T -> bool, x: T)
    ensures x in Filter(s, p) <==> x in s && p(x)
    decreases |s|
  {
    if |s| > 0 {
      var init := s[..|s| - 1];
      FilterMember(init, p, x);
      assert s == init + [s[|s| - 1]];
    }
  }

  /** Every selected element satisfies the predicate. */
  lemma FilterSatisfies<T>(s: seq<T>, p: T -> bool)
    ensures forall k :: 0 <= k < |Filter(s, p)| ==> p(Filter(s, p)[k])
  {
  }

  /** How many copies of `x` a filter keeps: all of them when `p(x)`, none otherwise. */
  lemma {:induction false} FilterCount<T>(s: seq<T>, p: T -> bool, x: T)
    ensures multiset(Filter(s, p))[x] == if p(x) then multiset(s)[x] else 0
    decreases |s|
  {
    if |s| > 0 {
      var init := s[..|s| - 1];
      FilterCount(init, p, x);
      assert s == init + [s[|s| - 1]];
    }
  }

  /** A predicate and its negation split a sequence into two parts that
      together hold every element exactly as often as the sequence does. */
  lemma {:induction false} FilterBipartition<T>(s: seq<T>, p: T -> bool)
    ensures multiset(Filter(s, p)) + multiset(Filter(s, Not(p))) == multiset(s)
    ensures |Filter(s, p)| + |Filter(s, Not(p))| == |s|
    decreases |s|
  {
    if |s| > 0 {
      var init := s[..|s| - 1];
      FilterBipartition(init, p);
      assert s == init + [s[|s| - 1]];
    }
    assert |multiset(Filter(s, p)) + multiset(Filter(s, Not(p)))| == |multiset(s)|;
  }

  /** Selecting then mapping equals mapping then selecting, when the two
      predicates agree through the map. */
  lemma {:induction false} FilterMap<T, U>(s: seq<T>, f: T -> U, p: T -> bool, q: U -> bool)
    requires forall x :: q(f(x)) == p(x)
    ensures Filter(Map(s, f), q) == Map(Filter(s, p), f)
    decreases |s|
  {
    if |s| > 0 {
      var init := s[..|s| - 1];
      FilterMap(init, f, p, q);
      assert Map(s, f)[..|s| - 1] == Map(init, f);
    }
  }

  /** No element occurs twice. */
  ghost predicate Distinct<T>(s: seq<T>)
  {
    forall i, j :: 0 <= i < j < |s| ==> s[i] != s[j]
  }

  /** In a sequence without repeats every element occurs once. */
  lemma {:induction false} DistinctCount<T>(s: seq<T>, x: T)
    requires Distinct(s)
    ensures multiset(s)[x] == if x in s then 1 else 0
    decreases |s|
  {
    if |s| > 0 {
      var init := s[..|s| - 1];
      assert s == init + [s[|s| - 1]];
      DistinctCount(init, x);
      if x == s[|s| - 1] {
        assert x !in init;
      }
    }
  }

  /** Two sequences that agree position by position on a pair of predicates
      have equally long selections. */
  lemma {:induction false} FilterLengthCorresponds<T, U>(s: seq<T>, p: T -> bool, r: seq<U>, q: U -> bool)
    requires |s| == |r|
    requires forall i :: 0 <= i < |s| ==> p(s[i]) == q(r[i])
    ensures |Filter(s, p)| == |Filter(r, q)|
    decreases |s|
  {
    if |s| > 0 {
      FilterLengthCorresponds(s[..|s| - 1], p, r[..|r| - 1], q);
    }
  }

  /** Membership in a list, as a selection predicate. */
  function InList<T(==)>(xs: seq<T>): T -> bool
  {
    x => x in xs
  }

  /** Selecting from distinct ids those in a sub-multiset `t` keeps exactly
      `|t|` of them. */
  lemma DistinctSelectionCount(ids: seq<int>, t: seq<int>)
    requires Distinct(ids)
    requires multiset(t) <= multiset(ids)
    ensures |Filter(ids, InList(t))| == |t|
  {
    var kept := Filter(ids, InList(t));
    forall x
      ensures multiset(kept)[x] == multiset(t)[x]
    {
      FilterCount(ids, InList(t), x);
      DistinctCount(ids, x);
      assert x in t <==> multiset(t)[x] > 0;
    }
    assert multiset(kept) == multiset(t);
    assert |kept| == |multiset(kept)| == |multiset(t)| == |t|;
  }
}
