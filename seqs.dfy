/**
 * `Array.prototype.filter` and the facts about it that the dashboards rely
 * on: membership, order preservation, composition of successive filters and
 * the split of an array by a predicate and its negation.
 */
module Seqs {

  /** `s.filter(p)`: the elements of `s` that satisfy `p`, in their original order. */
  function Filter<T>(s: seq<T>, p: T -> bool): (r: seq<T>)
    ensures |r| <= |s|
  {
    if s == [] then [] else (if p(s[0]) then [s[0]] else []) + Filter(s[1..], p)
  }

  /** Every element kept passes the test. */
  lemma {:induction false} FilterAll<T>(s: seq<T>, p: T -> bool)
    ensures forall i :: 0 <= i < |Filter(s, p)| ==> p(Filter(s, p)[i])
  {
    if s != [] {
      FilterAll(s[1..], p);
    }
  }

  /** `a` is `b` with some elements deleted and the rest in the same order. */
  predicate IsSubsequence<T(==)>(a: seq<T>, b: seq<T>)
    decreases |b|
  {
    if a == [] then true
    else if b == [] then false
    else if a[0] == b[0] then IsSubsequence(a[1..], b[1..])
    else IsSubsequence(a, b[1..])
  }

  lemma {:induction false} SubsequenceDropHead<T>(a: seq<T>, b: seq<T>)
    requires a != [] && IsSubsequence(a, b)
    ensures IsSubsequence(a[1..], b)
    decreases |b|, 0
  {
    if a[1..] != [] && b != [] {
      if a[0] == b[0] {
        assert IsSubsequence(a[1..], b[1..]);
        SubsequenceCons(a[1..], b[1..], b[0]);
        assert [b[0]] + b[1..] == b;
      } else {
        SubsequenceDropHead(a, b[1..]);
        SubsequenceCons(a[1..], b[1..], b[0]);
        assert [b[0]] + b[1..] == b;
      }
    }
  }

  /** Putting one more element in front of `b` keeps `a` a subsequence of it. */
  lemma {:induction false} SubsequenceCons<T>(a: seq<T>, b: seq<T>, x: T)
    requires IsSubsequence(a, b)
    ensures IsSubsequence(a, [x] + b)
    decreases |b|, 1
  {
    var xb := [x] + b;
    assert xb[1..] == b;
    if a != [] && a[0] == x {
      SubsequenceDropHead(a, b);
    }
  }

  /** JavaScript's `filter` returns an order-preserving subsequence of its input. */
  lemma {:induction false} FilterIsSubsequence<T>(s: seq<T>, p: T -> bool)
    ensures IsSubsequence(Filter(s, p), s)
  {
    if s != [] {
      FilterIsSubsequence(s[1..], p);
      var r := Filter(s, p);
      if p(s[0]) {
        assert r == [s[0]] + Filter(s[1..], p);
        assert r[1..] == Filter(s[1..], p);
      } else {
        assert r == Filter(s[1..], p);
        SubsequenceCons(r, s[1..], s[0]);
        assert [s[0]] + s[1..] == s;
      }
    }
  }

  /** Subsequences compose: a subsequence of a subsequence of `c` is a subsequence of `c`. */
  lemma {:induction false} SubsequenceTransitive<T>(a: seq<T>, b: seq<T>, c: seq<T>)
    requires IsSubsequence(a, b) && IsSubsequence(b, c)
    ensures IsSubsequence(a, c)
    decreases |c|
  {
    if a != [] {
      assert b != [] && c != [];
      if b[0] == c[0] {
        if a[0] == b[0] {
          SubsequenceTransitive(a[1..], b[1..], c[1..]);
        } else {
          SubsequenceTransitive(a, b[1..], c[1..]);
        }
      } else {
        SubsequenceTransitive(a, b, c[1..]);
        SubsequenceCons(a, c[1..], c[0]);
        assert [c[0]] + c[1..] == c;
      }
    }
  }

  lemma SubsequenceReflexive<T>(a: seq<T>)
    ensures IsSubsequence(a, a)
  {
  }

  /** An element is kept exactly when it is in the array and passes the test. */
  lemma FilterMembers<T>(s: seq<T>, p: T -> bool, x: T)
    ensures x in Filter(s, p) <==> x in s && p(x)
  {
    var r := Filter(s, p);
    if x in r {
      FilterAll(s, p);
      var i :| 0 <= i < |r| && r[i] == x;
    }
    if x in s && p(x) {
      var i :| 0 <= i < |s| && s[i] == x;
    }
  }

  /** Filtering an array that every element passes returns the same array. */
  lemma {:induction false} FilterAllPass<T>(s: seq<T>, p: T -> bool)
    requires forall x :: x in s ==> p(x)
    ensures Filter(s, p) == s
  {
    if s != [] {
      FilterAllPass(s[1..], p);
      assert [s[0]] + s[1..] == s;
    }
  }

  /** Filtering an array that no element passes returns the empty array. */
  lemma {:induction false} FilterNonePass<T>(s: seq<T>, p: T -> bool)
    requires forall i :: 0 <= i < |s| ==> !p(s[i])
    ensures Filter(s, p) == []
  {
    if s != [] {
      assert !p(s[0]);
      FilterNonePass(s[1..], p);
    }
  }

  /** Two successive filters are one filter by the conjunction of their predicates. */
  lemma {:induction false} FilterCompose<T>(s: seq<T>, p: T -> bool, q: T -> bool, both: T -> bool)
    requires forall x :: both(x) == (p(x) && q(x))
    ensures Filter(Filter(s, p), q) == Filter(s, both)
  {
    if s != [] {
      FilterCompose(s[1..], p, q, both);
      assert both(s[0]) == (p(s[0]) && q(s[0]));
      var fp := Filter(s, p);
      if p(s[0]) {
        assert fp == [s[0]] + Filter(s[1..], p);
        assert fp[1..] == Filter(s[1..], p);
      } else {
        assert fp == Filter(s[1..], p);
        assert Filter(s, both) == Filter(s[1..], both);
      }
    }
  }

  lemma {:induction false} FilterConcat<T>(a: seq<T>, b: seq<T>, p: T -> bool)
    ensures Filter(a + b, p) == Filter(a, p) + Filter(b, p)
  {
    if a == [] {
      assert a + b == b;
    } else {
      var head := if p(a[0]) then [a[0]] else [];
      assert (a + b)[0] == a[0] && (a + b)[1..] == a[1..] + b;
      assert Filter(a + b, p) == head + Filter(a[1..] + b, p);
      FilterConcat(a[1..], b, p);
      assert Filter(a, p) == head + Filter(a[1..], p);
    }
  }

  /** Filtering splits around any one position: the part before it, that element if it passes, the part after it. */
  lemma {:induction false} FilterAround<T>(s: seq<T>, k: nat, p: T -> bool)
    requires k < |s|
    ensures Filter(s, p) == Filter(s[..k], p) + (if p(s[k]) then [s[k]] else []) + Filter(s[k + 1..], p)
  {
    var tail := s[k..];
    assert s == s[..k] + tail;
    FilterConcat(s[..k], tail, p);
    assert tail[0] == s[k] && tail[1..] == s[k + 1..];
    assert Filter(tail, p) == (if p(s[k]) then [s[k]] else []) + Filter(s[k + 1..], p);
  }

  /** Replacing one element changes the filtered elements by at most that element out and its replacement in. */
  lemma FilterReplace<T>(s: seq<T>, k: nat, y: T, p: T -> bool)
    requires k < |s|
    ensures multiset(Filter(s[k := y], p)) + multiset(if p(s[k]) then [s[k]] else [])
      == multiset(Filter(s, p)) + multiset(if p(y) then [y] else [])
  {
    var r := s[k := y];
    assert r[..k] == s[..k] && r[k + 1..] == s[k + 1..] && r[k] == y;
    FilterAround(s, k, p);
    FilterAround(r, k, p);
  }

  /** Filtering an array is filtering all but its last element, then that element. */
  lemma FilterSnoc<T>(s: seq<T>, p: T -> bool)
    requires s != []
    ensures Filter(s, p) == Filter(s[..|s| - 1], p) + (if p(s[|s| - 1]) then [s[|s| - 1]] else [])
  {
    var init, last := s[..|s| - 1], s[|s| - 1];
    assert s == init + [last];
    FilterConcat(init, [last], p);
    assert Filter([last], p) == (if p(last) then [last] else []) by {
      assert [last][1..] == [];
    }
  }

  /** Filters by two predicates that agree on every element of the array give the same result. */
  lemma {:induction false} FilterSame<T>(s: seq<T>, p: T -> bool, q: T -> bool)
    requires forall i :: 0 <= i < |s| ==> p(s[i]) == q(s[i])
    ensures Filter(s, p) == Filter(s, q)
  {
    if s != [] {
      assert p(s[0]) == q(s[0]);
      FilterSame(s[1..], p, q);
    }
  }

  /** Filtering by a predicate and by its negation splits an array: every element lands in exactly one part. */
  lemma {:induction false} FilterPartition<T>(s: seq<T>, p: T -> bool, q: T -> bool)
    requires forall x :: q(x) == !p(x)
    ensures |Filter(s, p)| + |Filter(s, q)| == |s|
    ensures multiset(Filter(s, p)) + multiset(Filter(s, q)) == multiset(s)
  {
    if s != [] {
      FilterPartition(s[1..], p, q);
      assert s == [s[0]] + s[1..];
    }
  }

  /** The number of elements of `s` that satisfy `p`. */
  function Count<T>(s: seq<T>, p: T -> bool): nat {
    |Filter(s, p)|
  }

  /** Rearranging an array does not change how many of its elements satisfy a predicate. */
  lemma {:induction false} CountPermutation<T>(a: seq<T>, b: seq<T>, p: T -> bool)
    requires multiset(a) == multiset(b)
    ensures Count(a, p) == Count(b, p)
    decreases |a|
  {
    if a == [] {
      assert |b| == |multiset(b)|;
    } else {
      assert a[0] in multiset(b);
      var k :| 0 <= k < |b| && b[k] == a[0];
      var left, right := b[..k], b[k + 1..];
      assert b == left + [b[k]] + right;
      assert a == [a[0]] + a[1..];
      assert multiset(b) == multiset(left) + multiset{b[k]} + multiset(right);
      assert multiset(a) == multiset{a[0]} + multiset(a[1..]);
      assert multiset(left) + multiset(right) == multiset(b) - multiset{b[k]};
      assert multiset(a[1..]) == multiset(a) - multiset{a[0]};
      assert multiset(left + right) == multiset(left) + multiset(right);
      CountPermutation(a[1..], left + right, p);
      FilterConcat(left, right, p);
      FilterConcat(left + [b[k]], right, p);
      FilterConcat(left, [b[k]], p);
      assert Filter([b[k]], p) == if p(b[k]) then [b[k]] else [] by {
        assert [b[k]][1..] == [];
      }
    }
  }
}
