/** Sequence helpers shared by the entity store and the leaderboard. */
module Seqs {

  /** True when r can be obtained from s by deleting elements, i.e. r lists
      some of the elements of s in the order they have in s. */
  predicate IsSubsequence<T(==)>(r: seq<T>, s: seq<T>)
    decreases |s|
  {
    if |r| == 0 then true
    else if |s| == 0 then false
    else if r[0] == s[0] then IsSubsequence(r[1..], s[1..])
    else IsSubsequence(r, s[1..])
  }

  /** The elements of s that satisfy keep, in their original order: the
      behaviour of JavaScript's Array.prototype.filter. */
  function Filter<T>(s: seq<T>, keep: T -> bool): (r: seq<T>)
    ensures |r| <= |s|
    ensures forall i :: 0 <= i < |r| ==> keep(r[i])
    decreases |s|
  {
    if |s| == 0 then []
    else
      var rest := Filter(s[1..], keep);
      if keep(s[0]) then [s[0]] + rest else rest
  }

  lemma {:induction false} FilterCons<T>(x: T, s: seq<T>, keep: T -> bool)
    ensures Filter([x] + s, keep) == (if keep(x) then [x] else []) + Filter(s, keep)
  {
    assert ([x] + s)[1..] == s;
  }

  /** Exactly the elements that satisfy keep survive, each as often as in s. */
  lemma {:induction false} FilterCount<T(!new)>(s: seq<T>, keep: T -> bool)
    ensures forall x :: multiset(Filter(s, keep))[x] == if keep(x) then multiset(s)[x] else 0
    decreases |s|
  {
    if |s| > 0 {
      FilterCount(s[1..], keep);
      assert s == [s[0]] + s[1..];
    }
  }

  /** The survivors are exactly the elements of s that satisfy keep. */
  lemma FilterMembers<T(!new)>(s: seq<T>, keep: T -> bool)
    ensures forall x :: x in Filter(s, keep) <==> x in s && keep(x)
  {
    FilterCount(s, keep);
    forall x ensures x in Filter(s, keep) <==> x in s && keep(x) {
      assert multiset(Filter(s, keep))[x] == if keep(x) then multiset(s)[x] else 0;
    }
  }

  /** A property every element of s has is had by every survivor. */
  lemma {:induction false} FilterPreserves<T>(s: seq<T>, keep: T -> bool, good: T -> bool)
    requires forall k :: 0 <= k < |s| ==> good(s[k])
    ensures forall k :: 0 <= k < |Filter(s, keep)| ==> good(Filter(s, keep)[k])
    decreases |s|
  {
    if |s| > 0 {
      FilterPreserves(s[1..], keep, good);
    }
  }

  /** The survivors keep their relative order. */
  lemma {:induction false} FilterSubsequence<T>(s: seq<T>, keep: T -> bool)
    ensures IsSubsequence(Filter(s, keep), s)
    decreases |s|
  {
    if |s| > 0 {
      var rest := Filter(s[1..], keep);
      FilterSubsequence(s[1..], keep);
      if keep(s[0]) {
        assert ([s[0]] + rest)[1..] == rest;
      }
    }
  }

  /** Concatenation is associative; stated on plain sequences so that a
      proof can use it without unfolding what the sequences are. */
  lemma AppendAssoc<T>(a: seq<T>, b: seq<T>, c: seq<T>)
    ensures a + (b + c) == (a + b) + c
  {
  }

  /** Filtering distributes over concatenation: the survivors of a + b are
      the survivors of a followed by the survivors of b. */
  lemma {:induction false} FilterAppend<T>(a: seq<T>, b: seq<T>, keep: T -> bool)
    ensures Filter(a + b, keep) == Filter(a, keep) + Filter(b, keep)
    decreases |a|
  {
    if |a| == 0 {
      assert a + b == b;
    } else {
      assert (a + b)[1..] == a[1..] + b;
      FilterAppend(a[1..], b, keep);
    }
  }

  /** Filtering with a predicate and with its negation splits s in two. */
  lemma {:induction false} FilterComplement<T>(s: seq<T>, p: T -> bool, q: T -> bool)
    requires forall x :: q(x) == !p(x)
    ensures |Filter(s, p)| + |Filter(s, q)| == |s|
    ensures multiset(Filter(s, p)) + multiset(Filter(s, q)) == multiset(s)
    decreases |s|
  {
    if |s| > 0 {
      FilterComplement(s[1..], p, q);
      assert s == [s[0]] + s[1..];
    }
  }
}
