/**
 * `Array.prototype.sort` with the comparators the components pass to it.
 * Every comparator in the source orders by at most two integer criteria
 * (a status then a date, or a single date or count), so an element's sort
 * key is a pair compared lexicographically; a descending order is an
 * ascending order on the negated value. The sort is stable, as the
 * JavaScript one is: elements with equal keys keep their relative order.
 */
module Sorting {

  datatype Key = Key(major: int, minor: int)

  /** The comparator returns a value <= 0: `a` may stay in front of `b`. */
  predicate KeyLe(a: Key, b: Key) {
    a.major < b.major || (a.major == b.major && a.minor <= b.minor)
  }

  /** Insert `x` in front of the first element whose key is not smaller; equal keys keep `x` first. */
  function Insert<T>(x: T, s: seq<T>, key: T -> Key): (r: seq<T>)
    ensures |r| == |s| + 1
    ensures multiset(r) == multiset(s) + multiset{x}
    ensures forall i :: 0 <= i < |r| ==> r[i] == x || r[i] in s
  {
    if s == [] then [x]
    else if KeyLe(key(x), key(s[0])) then [x] + s
    else assert s == [s[0]] + s[1..]; [s[0]] + Insert(x, s[1..], key)
  }

  /** `[...s].sort(cmp)` for a comparator that orders by `key`. */
  function SortBy<T>(s: seq<T>, key: T -> Key): (r: seq<T>)
    ensures |r| == |s|
    ensures multiset(r) == multiset(s)
  {
    if s == [] then []
    else assert s == [s[0]] + s[1..]; Insert(s[0], SortBy(s[1..], key), key)
  }

  predicate SortedBy<T>(s: seq<T>, key: T -> Key) {
    forall i, j :: 0 <= i < j < |s| ==> KeyLe(key(s[i]), key(s[j]))
  }

  lemma {:induction false} InsertSorted<T>(x: T, s: seq<T>, key: T -> Key)
    requires SortedBy(s, key)
    ensures SortedBy(Insert(x, s, key), key)
  {
    if s != [] && !KeyLe(key(x), key(s[0])) {
      var rest := Insert(x, s[1..], key);
      assert SortedBy(s[1..], key) by {
        forall i, j | 0 <= i < j < |s[1..]| ensures KeyLe(key(s[1..][i]), key(s[1..][j])) {
          assert s[1..][i] == s[i + 1] && s[1..][j] == s[j + 1];
        }
      }
      InsertSorted(x, s[1..], key);
      var r := [s[0]] + rest;
      forall i, j | 0 <= i < j < |r| ensures KeyLe(key(r[i]), key(r[j])) {
        if i == 0 {
          assert r[j] == rest[j - 1];
          if rest[j - 1] != x {
            var k :| 0 <= k < |s[1..]| && s[1..][k] == rest[j - 1];
            assert s[1..][k] == s[k + 1];
          }
        } else {
          assert r[i] == rest[i - 1] && r[j] == rest[j - 1];
        }
      }
    }
  }

  /** The sorted copy is ordered by the comparator's key. */
  lemma {:induction false} SortBySorted<T>(s: seq<T>, key: T -> Key)
    ensures SortedBy(SortBy(s, key), key)
  {
    if s != [] {
      SortBySorted(s[1..], key);
      InsertSorted(s[0], SortBy(s[1..], key), key);
    }
  }

  /** Sorting neither adds nor drops an element: an element is in the sorted copy iff it is in the input. */
  lemma SortByMembers<T>(s: seq<T>, key: T -> Key, x: T)
    ensures x in SortBy(s, key) <==> x in s
  {
    var r := SortBy(s, key);
    assert x in r <==> x in multiset(r);
    assert x in s <==> x in multiset(s);
  }
}
