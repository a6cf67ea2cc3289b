/**
 * Python's ordering built-ins as the pipeline uses them on relevance scores:
 * `sorted(xs, key=k, reverse=True)` (a stable sort, highest key first) and
 * `max(xs, key=k)` (the first element whose key is maximal).
 */
module Sorting {

  /** Keys never increase from left to right. */
  predicate SortedDesc<T>(s: seq<T>, key: T -> real)
  {
    forall i, j :: 0 <= i < j < |s| ==> key(s[i]) >= key(s[j])
  }

  /** The elements of `s` whose key is `k`, in their order in `s`. */
  function WithKey<T>(s: seq<T>, key: T -> real, k: real): seq<T>
  {
    if s == [] then []
    else (if key(s[0]) == k then [s[0]] else []) + WithKey(s[1..], key, k)
  }

  /** Places `x` in front of the first element whose key is not greater than its own. */
  function InsertDesc<T>(x: T, s: seq<T>, key: T -> real): (r: seq<T>)
    ensures |r| == |s| + 1
    ensures multiset(r) == multiset(s) + multiset{x}
    ensures r[0] == x || (s != [] && r[0] == s[0])
  {
    if s == [] || key(s[0]) <= key(x) then [x] + s
    else
      assert s == [s[0]] + s[1..];
      [s[0]] + InsertDesc(x, s[1..], key)
  }

  /** Inserting into a sorted sequence keeps it sorted. */
  lemma {:induction false} InsertDescSorted<T>(x: T, s: seq<T>, key: T -> real)
    requires SortedDesc(s, key)
    ensures SortedDesc(InsertDesc(x, s, key), key)
  {
    if s != [] && key(s[0]) > key(x) {
      InsertDescSorted(x, s[1..], key);
      var t := InsertDesc(x, s[1..], key);
      assert key(s[0]) >= key(t[0]);
      assert forall j :: 0 <= j < |t| ==> key(t[0]) >= key(t[j]);
    }
  }

  /** `sorted(s, key=key, reverse=True)`. */
  function SortDesc<T>(s: seq<T>, key: T -> real): (r: seq<T>)
    ensures |r| == |s|
    ensures multiset(r) == multiset(s)
    ensures SortedDesc(r, key)
  {
    if s == [] then []
    else
      assert s == [s[0]] + s[1..];
      var t := SortDesc(s[1..], key);
      InsertDescSorted(s[0], t, key);
      InsertDesc(s[0], t, key)
  }

  /** Inserting `x` puts it in front of every element that has the same key. */
  lemma {:induction false} InsertWithKey<T>(x: T, s: seq<T>, key: T -> real, k: real)
    ensures WithKey(InsertDesc(x, s, key), key, k) ==
            (if key(x) == k then [x] else []) + WithKey(s, key, k)
  {
    if s == [] || key(s[0]) <= key(x) {
      var r := [x] + s;
      assert r[0] == x && r[1..] == s;
    } else {
      var t := InsertDesc(x, s[1..], key);
      var r := [s[0]] + t;
      assert r[0] == s[0] && r[1..] == t;
      assert WithKey(r, key, k) == (if key(s[0]) == k then [s[0]] else []) + WithKey(t, key, k);
      InsertWithKey(x, s[1..], key, k);
    }
  }

  /**
   * The sort is stable: the elements sharing any one key appear in the result
   * in the same order as in the input.
   */
  lemma {:induction false} SortDescStable<T>(s: seq<T>, key: T -> real, k: real)
    ensures WithKey(SortDesc(s, key), key, k) == WithKey(s, key, k)
  {
    if s != [] {
      SortDescStable(s[1..], key, k);
      InsertWithKey(s[0], SortDesc(s[1..], key), key, k);
    }
  }

  /** The index Python's `max(s, key=key)` picks: the first element with the largest key. */
  function FirstMax<T>(s: seq<T>, key: T -> real): (i: nat)
    requires |s| > 0
    ensures i < |s|
    ensures forall j :: 0 <= j < |s| ==> key(s[j]) <= key(s[i])
    ensures forall j :: 0 <= j < i ==> key(s[j]) < key(s[i])
  {
    if |s| == 1 then 0
    else
      var j := FirstMax(s[..|s| - 1], key);
      if key(s[|s| - 1]) > key(s[j]) then |s| - 1 else j
  }

  /** `max(xs)` over a non-empty list of scores. */
  function MaxScore(xs: seq<real>): (m: real)
    requires |xs| > 0
    ensures m in xs
    ensures forall i :: 0 <= i < |xs| ==> xs[i] <= m
  {
    xs[FirstMax(xs, x => x)]
  }

  /** Reordering the scores does not change their maximum. */
  lemma MaxScorePermutation(xs: seq<real>, ys: seq<real>)
    requires |xs| > 0 && multiset(xs) == multiset(ys)
    ensures |ys| == |xs|
    ensures MaxScore(xs) == MaxScore(ys)
  {
    assert |ys| == |multiset(ys)| == |xs|;
    var a, b := MaxScore(xs), MaxScore(ys);
    assert a in multiset(ys) && b in multiset(xs);
  }
}
