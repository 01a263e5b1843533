/**
 * `Array.prototype.sort` with a numeric comparator `(a, b) => key(a) - key(b)`.
 * Since ECMAScript 2019 that sort is stable: elements the comparator calls
 * equal keep their relative order. `SortBy` is a stable insertion sort; a
 * descending comparator `key(b) - key(a)` is `SortBy` on the negated key.
 */
module Sorting {
  import opened Seqs

  /** Keys never decrease from left to right. */
  ghost predicate SortedBy<T>(s: seq<T>, key: T -> int) {
    forall i, j :: 0 <= i < j < |s| ==> key(s[i]) <= key(s[j])
  }

  /** The elements of `s` whose key is `k`, in their order in `s`. */
  function WithKey<T>(s: seq<T>, key: T -> int, k: int): seq<T>
    decreases |s|
  {
    if |s| == 0 then []
    else if key(s[0]) == k then [s[0]] + WithKey(s[1..], key, k)
    else WithKey(s[1..], key, k)
  }

  /** Same elements, and elements of equal key in the same order: sorting moved nothing it need not move. */
  ghost predicate StablePermutation<T>(r: seq<T>, s: seq<T>, key: T -> int) {
    && multiset(r) == multiset(s)
    && forall k :: WithKey(r, key, k) == WithKey(s, key, k)
  }

  /** The elements of key `k` in a sequence with `h` in front. */
  lemma WithKeyCons<T>(h: T, s: seq<T>, key: T -> int)
    ensures forall k :: WithKey([h] + s, key, k) == if key(h) == k then [h] + WithKey(s, key, k) else WithKey(s, key, k)
  {
    assert ([h] + s)[1..] == s;
  }

  /** Putting an element no larger than every element in front of a sorted sequence keeps it sorted. */
  lemma ConsSorted<T>(h: T, s: seq<T>, key: T -> int)
    requires SortedBy(s, key)
    requires forall i :: 0 <= i < |s| ==> key(h) <= key(s[i])
    ensures SortedBy([h] + s, key)
  {
    var r := [h] + s;
    forall i, j | 0 <= i < j < |r| ensures key(r[i]) <= key(r[j]) {
      assert r[j] == s[j - 1];
      if i > 0 {
        assert r[i] == s[i - 1];
      }
    }
  }

  /** A bound below the keys of `x` and of every element of `s` stays below every key of a rearrangement of both. */
  lemma LowerBoundKept<T>(x: T, s: seq<T>, t: seq<T>, key: T -> int, b: int)
    requires multiset(t) == multiset(s) + multiset{x}
    requires b <= key(x) && forall i :: 0 <= i < |s| ==> b <= key(s[i])
    ensures forall i :: 0 <= i < |t| ==> b <= key(t[i])
  {
    forall i | 0 <= i < |t| ensures b <= key(t[i]) {
      assert t[i] in multiset(t);
      if t[i] != x {
        assert t[i] in multiset(s);
        var j :| 0 <= j < |s| && s[j] == t[i];
      }
    }
  }

  /** Puts `x` before the first element whose key is not smaller. */
  function Insert<T>(x: T, s: seq<T>, key: T -> int): (r: seq<T>)
    requires SortedBy(s, key)
    ensures |r| == |s| + 1
    ensures SortedBy(r, key)
    ensures multiset(r) == multiset(s) + multiset{x}
    ensures forall k :: WithKey(r, key, k) == if key(x) == k then [x] + WithKey(s, key, k) else WithKey(s, key, k)
    decreases |s|
  {
    if |s| == 0 || key(x) <= key(s[0]) then
      WithKeyCons(x, s, key);
      ConsSorted(x, s, key);
      [x] + s
    else
      var t := Insert(x, s[1..], key);
      assert multiset(s) == multiset{s[0]} + multiset(s[1..]) by { assert s == [s[0]] + s[1..]; }
      LowerBoundKept(x, s[1..], t, key, key(s[0]));
      WithKeyCons(s[0], t, key);
      ConsSorted(s[0], t, key);
      [s[0]] + t
  }

  /** The stable sort of `s` by `key`. */
  function SortBy<T>(s: seq<T>, key: T -> int): (r: seq<T>)
    ensures |r| == |s|
    ensures SortedBy(r, key)
    ensures StablePermutation(r, s, key)
    decreases |s|
  {
    if |s| == 0 then []
    else
      var r := Insert(s[0], SortBy(s[1..], key), key);
      assert multiset(s) == multiset{s[0]} + multiset(s[1..]) by { assert s == [s[0]] + s[1..]; }
      r
  }

  /** The elements of a sequence whose keys all equal `k`. */
  lemma {:induction false} WithKeyAllEqual<T>(s: seq<T>, key: T -> int, k: int)
    requires forall i :: 0 <= i < |s| ==> key(s[i]) == k
    ensures WithKey(s, key, k) == s
    decreases |s|
  {
    if |s| > 0 {
      WithKeyAllEqual(s[1..], key, k);
    }
  }

  /** A comparator that always answers 0 leaves the sequence as it was: a stable sort moves nothing. */
  lemma SortByEqualKeys<T>(s: seq<T>, key: T -> int, k: int)
    requires forall i :: 0 <= i < |s| ==> key(s[i]) == k
    ensures SortBy(s, key) == s
  {
    var r := SortBy(s, key);
    assert forall i :: 0 <= i < |r| ==> r[i] in multiset(s);
    WithKeyAllEqual(s, key, k);
    WithKeyAllEqual(r, key, k);
  }

  /** Inserting adds exactly the inserted element's value to any sum. */
  lemma {:induction false} SumByInsert<T>(x: T, s: seq<T>, key: T -> int, f: T -> int)
    requires SortedBy(s, key)
    ensures SumBy(Insert(x, s, key), f) == f(x) + SumBy(s, f)
    decreases |s|
  {
    if |s| == 0 || key(x) <= key(s[0]) {
      assert ([x] + s)[1..] == s;
    } else {
      var t := Insert(x, s[1..], key);
      assert ([s[0]] + t)[1..] == t;
      SumByInsert(x, s[1..], key, f);
    }
  }

  /** Sorting does not change a sum: it only reorders the summands. */
  lemma {:induction false} SumBySort<T>(s: seq<T>, key: T -> int, f: T -> int)
    ensures SumBy(SortBy(s, key), f) == SumBy(s, f)
    decreases |s|
  {
    if |s| > 0 {
      SumBySort(s[1..], key, f);
      SumByInsert(s[0], SortBy(s[1..], key), key, f);
    }
  }
}
