/// Stable descending sort by an integer key: `xs.sort((a, b) => key(b) - key(a))`.
/// A stable sort's output is fixed by the comparator alone (a sorted permutation
/// that keeps equal-key elements in input order), so insertion sort stands for
/// whichever stable algorithm the engine runs.
module Sorting {

  predicate SortedDesc<T>(xs: seq<T>, key: T -> int) {
    forall i, j :: 0 <= i < j < |xs| ==> key(xs[i]) >= key(xs[j])
  }

  /** The elements of `xs` whose key is `k`, in order. */
  function WithKey<T>(xs: seq<T>, key: T -> int, k: int): (r: seq<T>)
    ensures |r| <= |xs|
  {
    if xs == [] then []
    else if key(xs[0]) == k then [xs[0]] + WithKey(xs[1..], key, k)
    else WithKey(xs[1..], key, k)
  }

  /** Places `x` before the first element whose key is not above its own. */
  function Insert<T>(x: T, ys: seq<T>, key: T -> int): (r: seq<T>)
    ensures |r| == |ys| + 1
    ensures multiset(r) == multiset(ys) + multiset{x}
  {
    if ys == [] || key(ys[0]) <= key(x) then [x] + ys
    else
      assert ys == [ys[0]] + ys[1..];
      [ys[0]] + Insert(x, ys[1..], key)
  }

  lemma {:induction false} InsertSorted<T>(x: T, ys: seq<T>, key: T -> int)
    requires SortedDesc(ys, key)
    ensures SortedDesc(Insert(x, ys, key), key)
    decreases |ys|
  {
    if ys != [] && key(ys[0]) > key(x) {
      var rest := Insert(x, ys[1..], key);
      InsertSorted(x, ys[1..], key);
      InsertBounded(x, ys[1..], key, key(ys[0]));
      assert Insert(x, ys, key) == [ys[0]] + rest;
    }
  }

  /** Inserting below a bound every element already keeps to keeps every key within it. */
  lemma {:induction false} InsertBounded<T>(x: T, ys: seq<T>, key: T -> int, bound: int)
    requires key(x) <= bound && forall j :: 0 <= j < |ys| ==> key(ys[j]) <= bound
    ensures forall j :: 0 <= j < |Insert(x, ys, key)| ==> key(Insert(x, ys, key)[j]) <= bound
    decreases |ys|
  {
    if ys != [] && key(ys[0]) > key(x) {
      InsertBounded(x, ys[1..], key, bound);
      assert Insert(x, ys, key) == [ys[0]] + Insert(x, ys[1..], key);
    }
  }

  function SortDesc<T>(xs: seq<T>, key: T -> int): (r: seq<T>)
    ensures |r| == |xs|
    ensures multiset(r) == multiset(xs)
  {
    if xs == [] then []
    else
      assert xs == [xs[0]] + xs[1..];
      Insert(xs[0], SortDesc(xs[1..], key), key)
  }

  lemma {:induction false} SortDescSorted<T>(xs: seq<T>, key: T -> int)
    ensures SortedDesc(SortDesc(xs, key), key)
  {
    if xs != [] {
      SortDescSorted(xs[1..], key);
      InsertSorted(xs[0], SortDesc(xs[1..], key), key);
    }
  }

  lemma {:induction false} InsertWithKey<T>(x: T, ys: seq<T>, key: T -> int, k: int)
    ensures WithKey(Insert(x, ys, key), key, k)
         == if key(x) == k then [x] + WithKey(ys, key, k) else WithKey(ys, key, k)
    decreases |ys|
  {
    if ys == [] || key(ys[0]) <= key(x) {
      assert Insert(x, ys, key) == [x] + ys;
      assert ([x] + ys)[1..] == ys;
    } else {
      var rest := Insert(x, ys[1..], key);
      assert Insert(x, ys, key) == [ys[0]] + rest;
      assert ([ys[0]] + rest)[1..] == rest;
      InsertWithKey(x, ys[1..], key, k);
    }
  }

  /** Stability: for every key, the elements with that key keep their input order. */
  lemma {:induction false} SortDescStable<T>(xs: seq<T>, key: T -> int, k: int)
    ensures WithKey(SortDesc(xs, key), key, k) == WithKey(xs, key, k)
  {
    if xs != [] {
      SortDescStable(xs[1..], key, k);
      InsertWithKey(xs[0], SortDesc(xs[1..], key), key, k);
    }
  }

  /** The index of the first element with the largest key. */
  function FirstMax<T>(xs: seq<T>, key: T -> int): (i: nat)
    requires |xs| > 0
    ensures i < |xs|
    ensures forall j :: 0 <= j < |xs| ==> key(xs[j]) <= key(xs[i])
    ensures forall j :: 0 <= j < i ==> key(xs[j]) < key(xs[i])
  {
    if |xs| == 1 then 0
    else
      var m := 1 + FirstMax(xs[1..], key);
      if key(xs[0]) >= key(xs[m]) then 0 else m
  }

  /** The head of the sorted sequence is the first element with the largest key. */
  lemma {:induction false} SortDescHead<T>(xs: seq<T>, key: T -> int)
    requires |xs| > 0
    ensures SortDesc(xs, key)[0] == xs[FirstMax(xs, key)]
  {
    if |xs| > 1 {
      var rest := SortDesc(xs[1..], key);
      SortDescHead(xs[1..], key);
      var m := FirstMax(xs[1..], key);
      assert rest[0] == xs[1..][m];
      assert key(rest[0]) == key(xs[1 + m]);
    }
  }
}
