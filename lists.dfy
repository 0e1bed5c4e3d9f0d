/** JavaScript's `Array.prototype.filter` and `Array.prototype.map` on
    immutable sequences, with the facts the screens rely on. */
module Lists {

  /** `t` is an order-preserving subsequence of `s` (greedy matching). */
  predicate IsSubsequence<T(==)>(t: seq<T>, s: seq<T>)
    decreases |s|
  {
    if t == [] then true
    else if s == [] then false
    else if t[0] == s[0] then IsSubsequence(t[1..], s[1..])
    else IsSubsequence(t, s[1..])
  }

  /** `s.filter(p)`. */
  function Filter<T>(s: seq<T>, p: T -> bool): (r: seq<T>)
    ensures |r| <= |s|
    ensures forall x :: x in r ==> x in s && p(x)
    decreases |s|
  {
    if s == [] then []
    else if p(s[0]) then [s[0]] + Filter(s[1..], p)
    else Filter(s[1..], p)
  }

  /** The filter keeps elements in their original order. */
  lemma {:induction false} FilterIsSubsequence<T>(s: seq<T>, p: T -> bool)
    ensures IsSubsequence(Filter(s, p), s)
    decreases |s|
  {
    if s != [] {
      FilterIsSubsequence(s[1..], p);
      var r := Filter(s, p);
      if p(s[0]) {
        assert r[0] == s[0] && r[1..] == Filter(s[1..], p);
      } else {
        SubsequenceOfTail(r, s);
      }
    }
  }

  /** A subsequence of a tail is a subsequence of the whole sequence. */
  lemma {:induction false} SubsequenceOfTail<T>(t: seq<T>, s: seq<T>)
    requires s != [] && IsSubsequence(t, s[1..])
    ensures IsSubsequence(t, s)
    decreases |t| + |s|
  {
    if t != [] && t[0] == s[0] {
      SubsequenceTail(t, s[1..]);
    }
  }

  /** Dropping the head of a subsequence keeps it a subsequence. */
  lemma {:induction false} SubsequenceTail<T>(t: seq<T>, s: seq<T>)
    requires t != [] && IsSubsequence(t, s)
    ensures IsSubsequence(t[1..], s)
    decreases |t| + |s|
  {
    assert s != [];
    if t[0] == s[0] {
      SubsequenceOfTail(t[1..], s);
    } else {
      SubsequenceTail(t, s[1..]);
      SubsequenceOfTail(t[1..], s);
    }
  }

  /** The filter keeps every occurrence of an element that passes and no
      occurrence of one that fails; with the order fact above this
      determines the result completely. */
  lemma {:induction false} FilterCounts<T>(s: seq<T>, p: T -> bool)
    ensures forall x :: multiset(Filter(s, p))[x] == if p(x) then multiset(s)[x] else 0
    decreases |s|
  {
    if s != [] {
      FilterCounts(s[1..], p);
      assert s == [s[0]] + s[1..];
      assert multiset(s) == multiset{s[0]} + multiset(s[1..]);
    }
  }

  /** An element occurs in the result exactly when it occurs in the input
      and passes the predicate. */
  lemma FilterMembership<T>(s: seq<T>, p: T -> bool)
    ensures forall x :: x in Filter(s, p) <==> x in s && p(x)
  {
    FilterCounts(s, p);
    forall x ensures x in Filter(s, p) <==> x in s && p(x) {
      assert x in Filter(s, p) <==> multiset(Filter(s, p))[x] > 0;
      assert x in s <==> multiset(s)[x] > 0;
    }
  }

  /** When every element passes, the filter returns its input. */
  lemma {:induction false} FilterKeepsAll<T>(s: seq<T>, p: T -> bool)
    requires forall i :: 0 <= i < |s| ==> p(s[i])
    ensures Filter(s, p) == s
    decreases |s|
  {
    if s != [] {
      FilterKeepsAll(s[1..], p);
    }
  }

  /** Filtering twice by the same predicate is filtering once. */
  lemma {:induction false} FilterIdempotent<T>(s: seq<T>, p: T -> bool)
    ensures Filter(Filter(s, p), p) == Filter(s, p)
  {
    var r := Filter(s, p);
    forall i | 0 <= i < |r| ensures p(r[i]) {
      assert r[i] in r;
    }
    FilterKeepsAll(r, p);
  }

  /** `s.map(f)`. */
  function Map<T, U>(s: seq<T>, f: T -> U): (r: seq<U>)
    ensures |r| == |s|
    ensures forall i :: 0 <= i < |s| ==> r[i] == f(s[i])
    decreases |s|
  {
    if s == [] then [] else [f(s[0])] + Map(s[1..], f)
  }

  /** Mapping twice by a function that is idempotent on the input's
      elements is mapping once. */
  lemma MapIdempotent<T>(s: seq<T>, f: T -> T)
    requires forall i :: 0 <= i < |s| ==> f(f(s[i])) == f(s[i])
    ensures Map(Map(s, f), f) == Map(s, f)
  {
  }
}
