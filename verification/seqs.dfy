/** Generic sequence operations the store and the views are built from: an
    order-preserving filter (JavaScript's Array.prototype.filter) and a
    left-to-right sum (Array.prototype.reduce with `+` and seed 0), together
    with the facts about them that the rest of the model relies on. */
module Seqs {

  /** `sub` is obtained from `s` by deleting zero or more elements and keeping
      the rest in their original relative order. */
  predicate IsSubsequence<T(==)>(sub: seq<T>, s: seq<T>)
    decreases |s|
  {
    if |sub| == 0 then true
    else if |s| == 0 then false
    else (sub[|sub| - 1] == s[|s| - 1] && IsSubsequence(sub[..|sub| - 1], s[..|s| - 1]))
         || IsSubsequence(sub, s[..|s| - 1])
  }

  /** The elements of `s` satisfying `p`, in their original order. */
  function Filter<T>(s: seq<T>, p: T -> bool): (r: seq<T>)
    ensures |r| <= |s|
  {
    if |s| == 0 then []
    else
      var kept := Filter(s[..|s| - 1], p);
      if p(s[|s| - 1]) then kept + [s[|s| - 1]] else kept
  }

  /** A value survives the filter exactly when it is in `s` and passes `p`. */
  lemma {:induction false} FilterMembership<T(!new)>(s: seq<T>, p: T -> bool)
    ensures forall x :: x in Filter(s, p) <==> x in s && p(x)
  {
    if |s| > 0 {
      var init := s[..|s| - 1];
      FilterMembership(init, p);
      assert s == init + [s[|s| - 1]];
    }
  }

  /** The positions of `s` whose element satisfies `p`. */
  function IndicesWhere<T>(s: seq<T>, p: T -> bool): set<int>
  {
    set i | 0 <= i < |s| && p(s[i])
  }

  /** A filter keeps one element per position that passes: its length is the
      number of such positions. */
  lemma {:induction false} FilterCountsIndices<T>(s: seq<T>, p: T -> bool)
    ensures |Filter(s, p)| == |IndicesWhere(s, p)|
  {
    if |s| > 0 {
      var init := s[..|s| - 1];
      var n := |s| - 1;
      FilterCountsIndices(init, p);
      var before := IndicesWhere(init, p);
      assert n !in before;
      if p(s[n]) {
        assert IndicesWhere(s, p) == before + {n};
      } else {
        assert IndicesWhere(s, p) == before;
      }
    }
  }

  /** Sum of `f` over `s`, accumulated from the first element to the last. */
  function Sum<T>(s: seq<T>, f: T -> real): real
  {
    if |s| == 0 then 0.0 else Sum(s[..|s| - 1], f) + f(s[|s| - 1])
  }

  /** A filter keeps the survivors in their original relative order. */
  lemma {:induction false} FilterIsSubsequence<T(!new)>(s: seq<T>, p: T -> bool)
    ensures IsSubsequence(Filter(s, p), s)
  {
    if |s| > 0 {
      var init := s[..|s| - 1];
      FilterIsSubsequence(init, p);
      var r := Filter(s, p);
      if p(s[|s| - 1]) {
        assert r[..|r| - 1] == Filter(init, p);
      } else {
        assert r == Filter(init, p);
      }
    }
  }

  /** A subsequence is no longer than its sequence, and strictly shorter
      unless the two are equal. */
  lemma {:induction false} SubsequenceShorter<T>(sub: seq<T>, s: seq<T>)
    requires IsSubsequence(sub, s)
    ensures |sub| <= |s|
    ensures sub != s ==> |sub| < |s|
    decreases |s|
  {
    if |sub| > 0 && |s| > 0 {
      var sub', s' := sub[..|sub| - 1], s[..|s| - 1];
      if sub[|sub| - 1] == s[|s| - 1] && IsSubsequence(sub', s') {
        SubsequenceShorter(sub', s');
        if |sub| == |s| {
          assert sub == sub' + [sub[|sub| - 1]];
          assert s == s' + [s[|s| - 1]];
        }
      } else {
        SubsequenceShorter(sub, s');
      }
    }
  }

  /** Filtering distributes over concatenation. */
  lemma {:induction false} FilterConcat<T(!new)>(a: seq<T>, b: seq<T>, p: T -> bool)
    ensures Filter(a + b, p) == Filter(a, p) + Filter(b, p)
    decreases |b|
  {
    if |b| == 0 {
      assert a + b == a;
    } else {
      var b' := b[..|b| - 1];
      assert (a + b)[..|a + b| - 1] == a + b';
      assert (a + b)[|a + b| - 1] == b[|b| - 1];
      FilterConcat(a, b', p);
    }
  }

  /** A filter leaves a sequence unchanged exactly when every element passes. */
  lemma {:induction false} FilterKeepsAll<T(!new)>(s: seq<T>, p: T -> bool)
    ensures (forall i :: 0 <= i < |s| ==> p(s[i])) <==> Filter(s, p) == s
  {
    if |s| > 0 {
      var init := s[..|s| - 1];
      FilterKeepsAll(init, p);
      if forall i :: 0 <= i < |s| ==> p(s[i]) {
        assert forall i :: 0 <= i < |init| ==> p(init[i]);
        assert init + [s[|s| - 1]] == s;
      }
      if Filter(s, p) == s {
        assert forall i :: 0 <= i < |s| ==> s[i] in Filter(s, p);
      }
    }
  }

  /** Filtering a one-element sequence keeps or drops that element. */
  lemma FilterSingleton<T(!new)>(x: T, p: T -> bool)
    ensures Filter([x], p) == if p(x) then [x] else []
  {
    assert [x][..0] == [];
  }

  /** A filter that no element passes yields the empty sequence. */
  lemma {:induction false} FilterNone<T(!new)>(s: seq<T>, p: T -> bool)
    requires forall i :: 0 <= i < |s| ==> !p(s[i])
    ensures Filter(s, p) == []
  {
    if |s| > 0 {
      var init := s[..|s| - 1];
      assert forall i :: 0 <= i < |init| ==> !p(init[i]);
      FilterNone(init, p);
    }
  }

  /** How many copies of each value a filter keeps: all of them when the value
      passes, none otherwise. */
  lemma {:induction false} FilterMultiplicity<T(!new)>(s: seq<T>, p: T -> bool, x: T)
    ensures multiset(Filter(s, p))[x] == if p(x) then multiset(s)[x] else 0
  {
    if |s| > 0 {
      var init := s[..|s| - 1];
      FilterMultiplicity(init, p, x);
      assert s == init + [s[|s| - 1]];
    }
  }

  /** Every value keeps all of its copies when it passes the filter and none
      when it does not. */
  lemma FilterCounts<T(!new)>(s: seq<T>, p: T -> bool)
    ensures forall x :: multiset(Filter(s, p))[x] == if p(x) then multiset(s)[x] else 0
  {
    forall x
      ensures multiset(Filter(s, p))[x] == if p(x) then multiset(s)[x] else 0
    {
      FilterMultiplicity(s, p, x);
    }
  }

  /** Filtering two permutations of each other yields permutations of each other. */
  lemma FilterPermutation<T(!new)>(a: seq<T>, b: seq<T>, p: T -> bool)
    requires multiset(a) == multiset(b)
    ensures multiset(Filter(a, p)) == multiset(Filter(b, p))
  {
    forall x
      ensures multiset(Filter(a, p))[x] == multiset(Filter(b, p))[x]
    {
      FilterMultiplicity(a, p, x);
      FilterMultiplicity(b, p, x);
    }
  }

  /** The sum of a concatenation is the sum of the parts. */
  lemma {:induction false} SumConcat<T>(a: seq<T>, b: seq<T>, f: T -> real)
    ensures Sum(a + b, f) == Sum(a, f) + Sum(b, f)
    decreases |b|
  {
    if |b| == 0 {
      assert a + b == a;
    } else {
      var b' := b[..|b| - 1];
      assert (a + b)[..|a + b| - 1] == a + b';
      assert (a + b)[|a + b| - 1] == b[|b| - 1];
      SumConcat(a, b', f);
    }
  }

  /** Taking one element out of a sum lowers it by that element's term. */
  lemma {:induction false} SumRemove<T>(b: seq<T>, k: nat, f: T -> real)
    requires k < |b|
    ensures Sum(b, f) == Sum(b[..k] + b[k + 1..], f) + f(b[k])
  {
    var x := b[k];
    assert b == b[..k] + [x] + b[k + 1..];
    SumConcat(b[..k] + [x], b[k + 1..], f);
    SumConcat(b[..k], [x], f);
    SumConcat(b[..k], b[k + 1..], f);
    assert Sum([x], f) == f(x) by {
      assert [x][..0] == [];
    }
  }

  /** Removing matching elements from two permutations of each other leaves
      permutations of each other. */
  lemma MultisetRemoveLast<T>(a: seq<T>, b: seq<T>, k: nat)
    requires multiset(a) == multiset(b)
    requires |a| > 0 && k < |b| && b[k] == a[|a| - 1]
    ensures multiset(a[..|a| - 1]) == multiset(b[..k] + b[k + 1..])
  {
    var x := a[|a| - 1];
    var a', b' := a[..|a| - 1], b[..k] + b[k + 1..];
    assert a == a' + [x];
    assert b == b[..k] + [x] + b[k + 1..];
    forall y
      ensures multiset(a')[y] == multiset(b')[y]
    {
      assert multiset(a)[y] == multiset(a')[y] + multiset{x}[y];
      assert multiset(b)[y] == multiset(b[..k])[y] + multiset{x}[y] + multiset(b[k + 1..])[y];
    }
    assert multiset(a') == multiset(b');
  }

  /** The order of summation does not matter: every element counts exactly once. */
  lemma {:induction false} SumPermutation<T>(a: seq<T>, b: seq<T>, f: T -> real)
    requires multiset(a) == multiset(b)
    ensures Sum(a, f) == Sum(b, f)
    decreases |a|
  {
    if |a| == 0 {
      assert |multiset(b)| == 0;
    } else {
      var x := a[|a| - 1];
      assert x in multiset(a);
      var k :| 0 <= k < |b| && b[k] == x;
      MultisetRemoveLast(a, b, k);
      SumPermutation(a[..|a| - 1], b[..k] + b[k + 1..], f);
      SumRemove(b, k, f);
    }
  }

  /** A prefix takes nothing that is not in the whole sequence. */
  lemma PrefixSubmultiset<T>(s: seq<T>, k: nat)
    requires k <= |s|
    ensures multiset(s[..k]) <= multiset(s)
    ensures forall i :: 0 <= i < k ==> s[..k][i] in s
  {
    assert s == s[..k] + s[k..];
    assert forall i :: 0 <= i < k ==> s[..k][i] == s[i];
  }

  /** Two complementary filters split a sum: every element is counted by
      exactly one of them. */
  lemma {:induction false} SumPartition<T(!new)>(s: seq<T>, p: T -> bool, q: T -> bool, f: T -> real)
    requires forall x :: q(x) == !p(x)
    ensures Sum(Filter(s, p), f) + Sum(Filter(s, q), f) == Sum(s, f)
  {
    if |s| > 0 {
      var init := s[..|s| - 1];
      var x := s[|s| - 1];
      SumPartition(init, p, q, f);
      if p(x) {
        assert Filter(s, p)[..|Filter(s, p)| - 1] == Filter(init, p);
      } else {
        assert Filter(s, q)[..|Filter(s, q)| - 1] == Filter(init, q);
      }
    }
  }

  /** A sum of non-negative terms is non-negative. */
  lemma {:induction false} SumNonNegative<T>(s: seq<T>, f: T -> real)
    requires forall i :: 0 <= i < |s| ==> f(s[i]) >= 0.0
    ensures Sum(s, f) >= 0.0
  {
    if |s| > 0 {
      SumNonNegative(s[..|s| - 1], f);
    }
  }
}
