/**
 * `Array.prototype.sort` with the comparator `(a, b) => key(b) - key(a)`:
 * a stable sort into descending key order (ECMAScript 2019 requires the
 * library sort to be stable). The library routine is modelled by a stable
 * insertion sort on sequences; only its observable result matters here.
 */
module Sorting {

  predicate SortedDesc<T>(s: seq<T>, key: T -> real) {
    forall i, j :: 0 <= i < j < |s| ==> key(s[i]) >= key(s[j])
  }

  /** No two elements share the same projection `f` (for example the same URL). */
  predicate DistinctBy<T, U(==)>(s: seq<T>, f: T -> U) {
    forall i, j :: 0 <= i < j < |s| ==> f(s[i]) != f(s[j])
  }

  /**
   * Inserts `x` in front of the first element whose key is not greater than
   * its own, so that `x` stays ahead of elements with an equal key that came
   * after it in the input.
   */
  function Insert<T(==)>(x: T, s: seq<T>, key: T -> real): (r: seq<T>)
    ensures multiset(r) == multiset(s) + multiset{x}
    ensures |r| == |s| + 1
    ensures r[0] == x || (|s| > 0 && r[0] == s[0])
    ensures SortedDesc(s, key) ==> SortedDesc(r, key)
    decreases |s|
  {
    if s == [] || key(s[0]) <= key(x) then
      InsertFront(x, s, key);
      [x] + s
    else
      var t := Insert(x, s[1..], key);
      InsertStep(x, s, t, key);
      [s[0]] + t
  }

  /** `Insert`'s contract when `x` goes in front. */
  lemma {:induction false} InsertFront<T>(x: T, s: seq<T>, key: T -> real)
    requires s == [] || key(s[0]) <= key(x)
    ensures multiset([x] + s) == multiset(s) + multiset{x}
    ensures SortedDesc(s, key) ==> SortedDesc([x] + s, key)
  {
    if SortedDesc(s, key) {
      SortedCons(x, s, key);
    }
  }

  /** `Insert`'s contract when `x` goes behind the head, given the contract of the recursive call. */
  lemma {:induction false} InsertStep<T>(x: T, s: seq<T>, t: seq<T>, key: T -> real)
    requires s != [] && key(s[0]) > key(x)
    requires multiset(t) == multiset(s[1..]) + multiset{x}
    requires |t| == |s|
    requires t[0] == x || (|s| > 1 && t[0] == s[1])
    requires SortedDesc(s[1..], key) ==> SortedDesc(t, key)
    ensures multiset([s[0]] + t) == multiset(s) + multiset{x}
    ensures SortedDesc(s, key) ==> SortedDesc([s[0]] + t, key)
  {
    assert s == [s[0]] + s[1..];
    if SortedDesc(s, key) {
      InsertBehindHead(x, s, t, key);
    }
  }

  /** The step of `Insert` that passes the head of a descending sequence. */
  lemma {:induction false} InsertBehindHead<T>(x: T, s: seq<T>, t: seq<T>, key: T -> real)
    requires |s| > 0 && key(s[0]) > key(x) && SortedDesc(s, key)
    requires |t| > 0 && (t[0] == x || (|s| > 1 && t[0] == s[1]))
    requires SortedDesc(s[1..], key) ==> SortedDesc(t, key)
    ensures SortedDesc([s[0]] + t, key)
  {
    assert SortedDesc(s[1..], key) by {
      forall i, j | 0 <= i < j < |s[1..]| ensures key(s[1..][i]) >= key(s[1..][j]) {
        assert s[1..][i] == s[i + 1] && s[1..][j] == s[j + 1];
      }
    }
    if t[0] != x {
      assert key(s[0]) >= key(s[1]);
    }
    SortedCons(s[0], t, key);
  }

  /** A head no smaller than the first element extends a descending sequence. */
  lemma {:induction false} SortedCons<T>(h: T, t: seq<T>, key: T -> real)
    requires SortedDesc(t, key)
    requires |t| > 0 ==> key(h) >= key(t[0])
    ensures SortedDesc([h] + t, key)
  {
    forall i, j | 0 <= i < j < |t| + 1
      ensures key(([h] + t)[i]) >= key(([h] + t)[j])
    {
      if i > 0 {
        assert ([h] + t)[i] == t[i - 1];
      } else if j > 1 {
        assert key(t[0]) >= key(t[j - 1]);
      }
    }
  }

  /** The stable descending sort. */
  function SortDesc<T(==)>(s: seq<T>, key: T -> real): (r: seq<T>)
    ensures multiset(r) == multiset(s)
    ensures |r| == |s|
    ensures SortedDesc(r, key)
    decreases |s|
  {
    if s == [] then []
    else
      assert s == [s[0]] + s[1..];
      Insert(s[0], SortDesc(s[1..], key), key)
  }

  /** Index of the first element carrying the largest key. */
  function FirstMaxIndex<T>(s: seq<T>, key: T -> real): (k: nat)
    requires |s| > 0
    ensures k < |s|
    ensures forall j :: 0 <= j < |s| ==> key(s[j]) <= key(s[k])
    ensures forall j :: 0 <= j < k ==> key(s[j]) < key(s[k])
    decreases |s|
  {
    if |s| == 1 then 0
    else
      var k := FirstMaxIndex(s[1..], key) + 1;
      if key(s[0]) >= key(s[k]) then 0 else k
  }

  /**
   * Stability at the head: the first element of the sorted sequence is the
   * earliest of the elements with the largest key.
   */
  lemma {:induction false} SortDescHead<T>(s: seq<T>, key: T -> real)
    requires |s| > 0
    ensures SortDesc(s, key)[0] == s[FirstMaxIndex(s, key)]
    decreases |s|
  {
    if |s| > 1 {
      SortDescHead(s[1..], key);
    }
  }

  /** Sorting keeps elements apart under any projection they were apart under. */
  lemma {:induction false} SortDescDistinct<T, U>(s: seq<T>, key: T -> real, f: T -> U)
    requires DistinctBy(s, f)
    ensures DistinctBy(SortDesc(s, key), f)
    decreases |s|
  {
    if s != [] {
      var r := SortDesc(s[1..], key);
      SortDescDistinct(s[1..], key, f);
      forall y | y in r ensures f(y) != f(s[0]) {
        assert y in multiset(r);
        var j :| 0 <= j < |s[1..]| && s[1..][j] == y;
        assert s[j + 1] == y;
      }
      InsertDistinct(s[0], r, key, f);
    }
  }

  lemma {:induction false} InsertDistinct<T, U>(x: T, s: seq<T>, key: T -> real, f: T -> U)
    requires DistinctBy(s, f)
    requires forall y :: y in s ==> f(y) != f(x)
    ensures DistinctBy(Insert(x, s, key), f)
    decreases |s|
  {
    if s == [] || key(s[0]) <= key(x) {
    } else {
      InsertDistinct(x, s[1..], key, f);
      var t := Insert(x, s[1..], key);
      forall j | 0 <= j < |t| ensures f(t[j]) != f(s[0]) {
        assert t[j] in multiset(t);
      }
    }
  }

  /** `s.slice(0, n)` for a non-negative `n`. */
  function Take<T>(s: seq<T>, n: nat): (r: seq<T>)
    ensures |r| == if n < |s| then n else |s|
    ensures r == s[..|r|]
  {
    if n < |s| then s[..n] else s
  }

  /** `s.slice(0, end)` for any integer `end`: a negative end counts back from the length. */
  function SliceTo<T>(s: seq<T>, end: int): (r: seq<T>)
    ensures end >= 0 ==> r == Take(s, end)
    ensures end < 0 ==> r == s[..if |s| + end > 0 then |s| + end else 0]
  {
    if end >= 0 then Take(s, end)
    else s[..if |s| + end > 0 then |s| + end else 0]
  }
}
