/**
 * A count per key, as the dashboards keep it in a plain object
 * (`acc[k] = (acc[k] || 0) + 1`) and read back with `Object.entries`. The
 * object is an ordered list of entries: re-assigning an existing key keeps
 * its place, a new key goes to the end, so the entries come out in the
 * order the keys were first seen.
 */
module Tallies {
  import opened Seqs

  datatype Entry = Entry(key: string, count: nat)

  type Tally = seq<Entry>

  function Keys(t: Tally): (r: seq<string>)
    ensures |r| == |t| && forall i :: 0 <= i < |t| ==> r[i] == t[i].key
  {
    if t == [] then [] else [t[0].key] + Keys(t[1..])
  }

  predicate DistinctKeys(t: Tally) {
    forall i, j :: 0 <= i < j < |t| ==> t[i].key != t[j].key
  }

  /** `acc[k] || 0`: the count stored under `k`, or 0 when the key is absent. */
  function Get(t: Tally, k: string): (r: nat)
    ensures k !in Keys(t) ==> r == 0
  {
    if t == [] then 0 else if t[0].key == k then t[0].count else Get(t[1..], k)
  }

  /** `acc[k] = (acc[k] || 0) + 1` */
  function Bump(t: Tally, k: string): (r: Tally)
    ensures Get(r, k) == Get(t, k) + 1
  {
    if t == [] then [Entry(k, 1)]
    else if t[0].key == k then [Entry(k, t[0].count + 1)] + t[1..]
    else [t[0]] + Bump(t[1..], k)
  }

  /** An existing key keeps its place; a new key goes to the end. */
  lemma {:induction false} BumpKeys(t: Tally, k: string)
    ensures Keys(Bump(t, k)) == if k in Keys(t) then Keys(t) else Keys(t) + [k]
  {
    if t == [] {
      KeysCons(Entry(k, 1), []);
    } else {
      KeysCons(t[0], t[1..]);
      assert [t[0]] + t[1..] == t;
      if t[0].key == k {
        KeysCons(Entry(k, t[0].count + 1), t[1..]);
      } else {
        BumpKeys(t[1..], k);
        KeysCons(t[0], Bump(t[1..], k));
        InKeysCons(Keys(t[1..]), t[0].key, k);
      }
    }
  }

  lemma KeysCons(e: Entry, t: Tally)
    ensures Keys([e] + t) == [e.key] + Keys(t)
  {
    assert ([e] + t)[1..] == t;
  }

  lemma InKeysCons(ks: seq<string>, x: string, k: string)
    requires x != k
    ensures k in [x] + ks <==> k in ks
    ensures ([x] + ks) + [k] == [x] + (ks + [k])
  {
  }

  /** Bumping one key leaves every other key's count as it was. */
  lemma {:induction false} BumpOther(t: Tally, k: string, other: string)
    requires other != k
    ensures Get(Bump(t, k), other) == Get(t, other)
  {
    if t != [] && t[0].key != k {
      BumpOther(t[1..], k, other);
      assert Bump(t, k)[1..] == Bump(t[1..], k);
    }
  }

  /** The sum of the counts. */
  function Total(t: Tally): nat {
    if t == [] then 0 else t[0].count + Total(t[1..])
  }

  lemma {:induction false} BumpTotal(t: Tally, k: string)
    ensures Total(Bump(t, k)) == Total(t) + 1
  {
    if t != [] && t[0].key != k {
      BumpTotal(t[1..], k);
      assert (Bump(t, k))[1..] == Bump(t[1..], k);
    }
  }

  /** `s.reduce((acc, x) => { acc[key(x)] = (acc[key(x)] || 0) + 1; return acc; }, {})` */
  function TallyBy<T>(s: seq<T>, key: T -> string): Tally
    decreases |s|
  {
    if s == [] then [] else Bump(TallyBy(s[..|s| - 1], key), key(s[|s| - 1]))
  }

  /** The test `x => key(x) === k`. */
  function HasKey<T>(key: T -> string, k: string): T -> bool {
    (x: T) => key(x) == k
  }

  lemma HasKeyApply<T>(key: T -> string, k: string, x: T)
    ensures HasKey(key, k)(x) == (key(x) == k)
  {
  }

  /** One more element bumps its key. */
  lemma TallyBySnoc<T>(s: seq<T>, i: nat, key: T -> string)
    requires i < |s|
    ensures TallyBy(s[..i + 1], key) == Bump(TallyBy(s[..i], key), key(s[i]))
  {
    assert s[..i + 1][..i] == s[..i];
  }

  /** The count stored under a key is the number of elements with that key. */
  lemma {:induction false} TallyByGet<T>(s: seq<T>, key: T -> string, k: string)
    ensures Get(TallyBy(s, key), k) == Count(s, HasKey(key, k))
    decreases |s|
  {
    if s != [] {
      var init, last := s[..|s| - 1], s[|s| - 1];
      var p := HasKey(key, k);
      TallyByGet(init, key, k);
      if key(last) != k {
        BumpOther(TallyBy(init, key), key(last), k);
      }
      FilterSnoc(s, p);
    }
  }

  /** Bumping a key keeps the keys distinct. */
  lemma {:induction false} BumpDistinct(t: Tally, k: string)
    requires DistinctKeys(t)
    ensures DistinctKeys(Bump(t, k))
  {
    BumpKeys(t, k);
    var r := Bump(t, k);
    var kr, kt := Keys(r), Keys(t);
    forall i, j | 0 <= i < j < |r| ensures r[i].key != r[j].key {
      assert kr[i] == r[i].key && kr[j] == r[j].key;
      if j < |t| {
        assert kt[i] == t[i].key && kt[j] == t[j].key;
      } else {
        assert kt[i] == t[i].key;
      }
    }
  }

  /** The keys are distinct. */
  lemma {:induction false} TallyByDistinct<T>(s: seq<T>, key: T -> string)
    ensures DistinctKeys(TallyBy(s, key))
    decreases |s|
  {
    if s != [] {
      TallyByDistinct(s[..|s| - 1], key);
      BumpDistinct(TallyBy(s[..|s| - 1], key), key(s[|s| - 1]));
    }
  }

  /** A key is present exactly when some element has it. */
  lemma {:induction false} TallyByKeys<T>(s: seq<T>, key: T -> string, k: string)
    ensures k in Keys(TallyBy(s, key)) <==> exists i :: 0 <= i < |s| && key(s[i]) == k
    decreases |s|
  {
    if s != [] {
      var init, last := s[..|s| - 1], s[|s| - 1];
      var t := TallyBy(init, key);
      TallyByKeys(init, key, k);
      BumpKeys(t, key(last));
      assert TallyBy(s, key) == Bump(t, key(last));
      InKeysSnoc(Keys(t), key(last), k);
      SomeKeySnoc(s, init, key, k);
    }
  }

  lemma InKeysSnoc(ks: seq<string>, x: string, k: string)
    ensures k in (if x in ks then ks else ks + [x]) <==> k in ks || k == x
  {
  }

  lemma SomeKeySnoc<T>(s: seq<T>, init: seq<T>, key: T -> string, k: string)
    requires s != [] && init == s[..|s| - 1]
    ensures (exists i :: 0 <= i < |s| && key(s[i]) == k) <==>
      (exists i :: 0 <= i < |init| && key(init[i]) == k) || key(s[|s| - 1]) == k
  {
    if exists i :: 0 <= i < |s| && key(s[i]) == k {
      var i :| 0 <= i < |s| && key(s[i]) == k;
      if i < |init| {
        assert init[i] == s[i];
      }
    }
    if exists i :: 0 <= i < |init| && key(init[i]) == k {
      var i :| 0 <= i < |init| && key(init[i]) == k;
      assert init[i] == s[i];
    }
  }

  /** The counts add up to the number of elements. */
  lemma {:induction false} TallyByTotal<T>(s: seq<T>, key: T -> string)
    ensures Total(TallyBy(s, key)) == |s|
    decreases |s|
  {
    if s != [] {
      TallyByTotal(s[..|s| - 1], key);
      BumpTotal(TallyBy(s[..|s| - 1], key), key(s[|s| - 1]));
    }
  }

  /** With distinct keys, every entry's count is what `Get` reads under its key. */
  lemma {:induction false} GetDistinct(t: Tally, i: nat)
    requires DistinctKeys(t) && i < |t|
    ensures Get(t, t[i].key) == t[i].count
  {
    if i > 0 {
      assert t[0].key != t[i].key;
      GetDistinct(t[1..], i - 1);
    }
  }

  /** Every entry counts at least one element, and no more than there are. */
  lemma TallyByCounts<T>(s: seq<T>, key: T -> string)
    ensures forall i :: 0 <= i < |TallyBy(s, key)| ==> 1 <= TallyBy(s, key)[i].count <= |s|
  {
    var t := TallyBy(s, key);
    TallyByDistinct(s, key);
    forall i | 0 <= i < |t| ensures 1 <= t[i].count <= |s| {
      var k := t[i].key;
      GetDistinct(t, i);
      TallyByGet(s, key, k);
      assert Keys(t)[i] == k;
      TallyByKeys(s, key, k);
      var j :| 0 <= j < |s| && key(s[j]) == k;
      HasKeyApply(key, k, s[j]);
      FilterMembers(s, HasKey(key, k), s[j]);
    }
  }

  /** The number of elements whose key is one of `ks`, counted key by key. */
  function SumCounts<T>(s: seq<T>, key: T -> string, ks: seq<string>): nat {
    if ks == [] then 0 else Count(s, HasKey(key, ks[0])) + SumCounts(s, key, ks[1..])
  }

  /** The test `x => ks.includes(key(x))`. */
  function KeyIn<T>(key: T -> string, ks: seq<string>): T -> bool {
    (x: T) => key(x) in ks
  }

  lemma {:induction false} SumCountsEmpty<T>(key: T -> string, ks: seq<string>)
    ensures SumCounts([], key, ks) == 0
  {
    if ks != [] {
      SumCountsEmpty(key, ks[1..]);
    }
  }

  lemma {:induction false} SumCountsSnoc<T>(s: seq<T>, key: T -> string, ks: seq<string>)
    requires s != [] && forall i, j :: 0 <= i < j < |ks| ==> ks[i] != ks[j]
    ensures SumCounts(s, key, ks) == SumCounts(s[..|s| - 1], key, ks) + (if key(s[|s| - 1]) in ks then 1 else 0)
  {
    if ks != [] {
      SumCountsSnoc(s, key, ks[1..]);
      FilterSnoc(s, HasKey(key, ks[0]));
      assert ks == [ks[0]] + ks[1..];
      assert key(s[|s| - 1]) == ks[0] ==> key(s[|s| - 1]) !in ks[1..];
    }
  }

  /** With distinct keys, the per-key counts add up to the number of elements whose key is among them. */
  lemma {:induction false} SumCountsIsCount<T>(s: seq<T>, key: T -> string, ks: seq<string>)
    requires forall i, j :: 0 <= i < j < |ks| ==> ks[i] != ks[j]
    ensures SumCounts(s, key, ks) == Count(s, KeyIn(key, ks))
    decreases |s|
  {
    if s == [] {
      SumCountsEmpty(key, ks);
    } else {
      SumCountsIsCount(s[..|s| - 1], key, ks);
      SumCountsSnoc(s, key, ks);
      FilterSnoc(s, KeyIn(key, ks));
    }
  }
}
