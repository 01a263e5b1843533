/** Sequence operations shared by the pages: `filter`, `findIndex`, `slice(0, n)` and `reduce` with `+`. */
module Seqs {
  import opened Wrappers

  /** `a` can be obtained from `b` by deleting elements: same elements, same relative order. */
  ghost predicate IsSubsequence<T>(a: seq<T>, b: seq<T>)
    decreases |b|
  {
    |a| == 0 || (|b| > 0 && ((a[0] == b[0] && IsSubsequence(a[1..], b[1..])) || IsSubsequence(a, b[1..])))
  }

  /** Every sequence is a subsequence of itself. */
  lemma {:induction false} SubsequenceReflexive<T>(s: seq<T>)
    ensures IsSubsequence(s, s)
    decreases |s|
  {
    if |s| > 0 {
      SubsequenceReflexive(s[1..]);
    }
  }

  /** `s.filter(p)`: the elements satisfying `p`, in their original order. */
  function Filter<T(==,!new)>(s: seq<T>, p: T -> bool): (r: seq<T>)
    ensures |r| <= |s|
    ensures forall i :: 0 <= i < |r| ==> r[i] in s && p(r[i])
    ensures forall i :: 0 <= i < |s| && p(s[i]) ==> s[i] in r
    ensures IsSubsequence(r, s)
    ensures forall x :: multiset(r)[x] == if p(x) then multiset(s)[x] else 0
    decreases |s|
  {
    if |s| == 0 then []
    else
      var rest := Filter(s[1..], p);
      assert s == [s[0]] + s[1..];
      FilterStep(s[0], s[1..], rest, p);
      if p(s[0]) then [s[0]] + rest else rest
  }

  /** The inductive step of `Filter`: its contract survives putting one more element in front. */
  lemma FilterStep<T(!new)>(x: T, t: seq<T>, rest: seq<T>, p: T -> bool)
    requires |rest| <= |t|
    requires forall i :: 0 <= i < |rest| ==> rest[i] in t && p(rest[i])
    requires forall i :: 0 <= i < |t| && p(t[i]) ==> t[i] in rest
    requires IsSubsequence(rest, t)
    requires forall y :: multiset(rest)[y] == if p(y) then multiset(t)[y] else 0
    ensures var r, s := if p(x) then [x] + rest else rest, [x] + t;
      && |r| <= |s|
      && (forall i :: 0 <= i < |r| ==> r[i] in s && p(r[i]))
      && (forall i :: 0 <= i < |s| && p(s[i]) ==> s[i] in r)
      && IsSubsequence(r, s)
      && (forall y :: multiset(r)[y] == if p(y) then multiset(s)[y] else 0)
  {
    var s := [x] + t;
    assert s[1..] == t;
    assert forall i :: 0 < i < |s| ==> s[i] == t[i - 1];
    assert multiset(s) == multiset{x} + multiset(t);
    if p(x) {
      var r := [x] + rest;
      assert r[1..] == rest;
      assert forall i :: 0 < i < |r| ==> r[i] == rest[i - 1];
      assert multiset(r) == multiset{x} + multiset(rest);
    }
  }

  /** A subsequence holds each element at most as often as the sequence it was taken from. */
  lemma {:induction false} SubsequenceMultiset<T>(a: seq<T>, b: seq<T>)
    requires IsSubsequence(a, b)
    ensures multiset(a) <= multiset(b)
    decreases |b|
  {
    if |a| > 0 {
      assert b == [b[0]] + b[1..];
      if a[0] == b[0] && IsSubsequence(a[1..], b[1..]) {
        SubsequenceMultiset(a[1..], b[1..]);
        assert a == [a[0]] + a[1..];
      } else {
        SubsequenceMultiset(a, b[1..]);
      }
    }
  }

  /**
   * `Filter` is the only subsequence that keeps every passing element as
   * often as it occurs and no failing one: the order and the multiplicities
   * pin the result down.
   */
  lemma {:induction false} FilterCharacterised<T(!new)>(r: seq<T>, s: seq<T>, p: T -> bool)
    requires IsSubsequence(r, s)
    requires forall x :: multiset(r)[x] == if p(x) then multiset(s)[x] else 0
    ensures r == Filter(s, p)
    decreases |s|
  {
    if |s| == 0 {
      assert multiset(r) == multiset{};
    } else {
      var s0, t := s[0], s[1..];
      assert s == [s0] + t;
      if p(s0) {
        assert multiset(r)[s0] > 0;
        assert r == [r[0]] + r[1..];
        if r[0] == s0 && IsSubsequence(r[1..], t) {
          forall x ensures multiset(r[1..])[x] == if p(x) then multiset(t)[x] else 0 {
          }
          FilterCharacterised(r[1..], t, p);
        } else {
          SubsequenceMultiset(r, t);
          assert false;
        }
      } else {
        if |r| > 0 {
          assert r[0] in multiset(r);
        }
        forall x ensures multiset(r)[x] == if p(x) then multiset(t)[x] else 0 {
        }
        FilterCharacterised(r, t, p);
      }
    }
  }

  /** Filtering keeps everything exactly when every element passes. */
  lemma {:induction false} FilterAllPass<T(!new)>(s: seq<T>, p: T -> bool)
    requires forall i :: 0 <= i < |s| ==> p(s[i])
    ensures Filter(s, p) == s
    decreases |s|
  {
    if |s| > 0 {
      FilterAllPass(s[1..], p);
    }
  }

  /** Filtering twice with the same predicate is filtering once. */
  lemma {:induction false} FilterIdempotent<T(!new)>(s: seq<T>, p: T -> bool)
    ensures Filter(Filter(s, p), p) == Filter(s, p)
  {
    FilterAllPass(Filter(s, p), p);
  }

  /** Filtering distributes over concatenation. */
  lemma {:induction false} FilterAppend<T(!new)>(a: seq<T>, b: seq<T>, p: T -> bool)
    ensures Filter(a + b, p) == Filter(a, p) + Filter(b, p)
    decreases |a|
  {
    if |a| > 0 {
      assert (a + b)[1..] == a[1..] + b;
      FilterAppend(a[1..], b, p);
    } else {
      assert a + b == b;
    }
  }

  /** Two sequences with the same multiset have the same members. */
  lemma SameMultisetSameMembers<T>(a: seq<T>, b: seq<T>)
    requires multiset(a) == multiset(b)
    ensures forall i :: 0 <= i < |a| ==> a[i] in b
    ensures forall i :: 0 <= i < |b| ==> b[i] in a
  {
    forall i | 0 <= i < |a| ensures a[i] in b {
      assert a[i] in multiset(a);
    }
    forall i | 0 <= i < |b| ensures b[i] in a {
      assert b[i] in multiset(b);
    }
  }

  /** A reordering of `Filter(s, p)` holds exactly the elements of `s` that satisfy `p`. */
  lemma ReorderedFilterMembers<T(!new)>(s: seq<T>, p: T -> bool, r: seq<T>)
    requires multiset(r) == multiset(Filter(s, p))
    ensures forall i :: 0 <= i < |r| ==> r[i] in s && p(r[i])
    ensures forall i :: 0 <= i < |s| && p(s[i]) ==> s[i] in r
  {
    SameMultisetSameMembers(r, Filter(s, p));
  }

  /** `s.findIndex(p)`, `None` for -1: the first position whose element satisfies `p`. */
  function FindFirst<T>(s: seq<T>, p: T -> bool): (r: Option<nat>)
    ensures r.Some? ==> r.value < |s| && p(s[r.value])
    ensures r.Some? ==> forall j :: 0 <= j < r.value ==> !p(s[j])
    ensures r.None? <==> forall j :: 0 <= j < |s| ==> !p(s[j])
    decreases |s|
  {
    if |s| == 0 then None
    else if p(s[0]) then Some(0)
    else
      var rest := FindFirst(s[1..], p);
      if rest.None? then None else Some(rest.value + 1)
  }

  function Min(a: nat, b: nat): nat { if a <= b then a else b }

  /** `s.slice(0, n)`: the first `n` elements, or all of them when there are fewer. */
  function Take<T>(s: seq<T>, n: nat): (r: seq<T>)
    ensures |r| == Min(n, |s|)
    ensures forall i :: 0 <= i < |r| ==> r[i] == s[i]
  {
    if n <= |s| then s[..n] else s
  }

  /** `s.reduce((acc, x) => acc + f(x), 0)`. */
  function SumBy<T>(s: seq<T>, f: T -> int): int
    decreases |s|
  {
    if |s| == 0 then 0 else f(s[0]) + SumBy(s[1..], f)
  }

  /** A sum over a concatenation is the sum of the two sums. */
  lemma {:induction false} SumByAppend<T>(a: seq<T>, b: seq<T>, f: T -> int)
    ensures SumBy(a + b, f) == SumBy(a, f) + SumBy(b, f)
    decreases |a|
  {
    if |a| > 0 {
      assert (a + b)[1..] == a[1..] + b;
      SumByAppend(a[1..], b, f);
    } else {
      assert a + b == b;
    }
  }
}
