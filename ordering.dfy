/** The two LINQ idioms the system uses to rank candidates by a score:
    `OrderByDescending(key)`, a STABLE sort (equal keys keep their input
    order), and `OrderByDescending(key).First()`, which therefore picks the
    first element holding the maximal key. */
module Ordering {

  /** Index of the first maximal value of `s`. */
  function ArgMaxFirst(s: seq<real>): (i: nat)
    requires |s| > 0
    ensures i < |s|
    ensures forall k :: 0 <= k < |s| ==> s[k] <= s[i]
    ensures forall k :: 0 <= k < i ==> s[k] < s[i]
    decreases |s|
  {
    if |s| == 1 then 0
    else
      var j := 1 + ArgMaxFirst(s[1..]);
      if s[0] >= s[j] then 0 else j
  }

  function Keys<T>(xs: seq<T>, key: T -> real): (ks: seq<real>)
    ensures |ks| == |xs|
    ensures forall i :: 0 <= i < |xs| ==> ks[i] == key(xs[i])
  {
    seq(|xs|, i requires 0 <= i < |xs| => key(xs[i]))
  }

  predicate SortedDescending<T>(xs: seq<T>, key: T -> real) {
    forall i, j :: 0 <= i < j < |xs| ==> key(xs[i]) >= key(xs[j])
  }

  /** Places `x` in front of the first element whose key is not larger, so an
      element inserted later (that is, earlier in the input) precedes equal
      keys. */
  function InsertDescending<T>(x: T, sorted: seq<T>, key: T -> real): (r: seq<T>)
    ensures multiset(r) == multiset(sorted) + multiset{x}
    ensures |r| == |sorted| + 1
    decreases |sorted|
  {
    if |sorted| == 0 || key(x) >= key(sorted[0]) then [x] + sorted
    else
      assert sorted == [sorted[0]] + sorted[1..];
      [sorted[0]] + InsertDescending(x, sorted[1..], key)
  }

  /** Insertion into a sorted sequence keeps it sorted, and the head is
      `x` exactly when `x`'s key is at least the old head's. */
  lemma {:induction false} InsertKeepsOrder<T>(x: T, sorted: seq<T>, key: T -> real)
    requires SortedDescending(sorted, key)
    ensures SortedDescending(InsertDescending(x, sorted, key), key)
    ensures |sorted| == 0 ==> InsertDescending(x, sorted, key) == [x]
    ensures |sorted| > 0 && key(x) >= key(sorted[0]) ==> InsertDescending(x, sorted, key)[0] == x
    ensures |sorted| > 0 && key(x) < key(sorted[0]) ==> InsertDescending(x, sorted, key)[0] == sorted[0]
    decreases |sorted|
  {
    if |sorted| > 0 && key(x) < key(sorted[0]) {
      var tail := sorted[1..];
      var rest := InsertDescending(x, tail, key);
      InsertKeepsOrder(x, tail, key);
      assert key(rest[0]) <= key(sorted[0]);
      var r := [sorted[0]] + rest;
      assert r == InsertDescending(x, sorted, key);
      forall i, j | 0 <= i < j < |r|
        ensures key(r[i]) >= key(r[j])
      {
        if i > 0 {
          assert r[i] == rest[i - 1] && r[j] == rest[j - 1];
        } else {
          assert key(rest[0]) >= key(rest[j - 1]);
        }
      }
    }
  }

  /** `xs.OrderByDescending(key)`: a stable insertion sort. */
  function SortByDescending<T>(xs: seq<T>, key: T -> real): (r: seq<T>)
    ensures multiset(r) == multiset(xs)
    ensures |r| == |xs|
    ensures SortedDescending(r, key)
    decreases |xs|
  {
    if |xs| == 0 then []
    else
      assert xs == [xs[0]] + xs[1..];
      var rest := SortByDescending(xs[1..], key);
      InsertKeepsOrder(xs[0], rest, key);
      InsertDescending(xs[0], rest, key)
  }

  /** `OrderByDescending(key).First()` is the first element of maximal key. */
  lemma {:induction false} FirstOfSortIsFirstMaximum<T>(xs: seq<T>, key: T -> real)
    requires |xs| > 0
    ensures SortByDescending(xs, key)[0] == xs[ArgMaxFirst(Keys(xs, key))]
    decreases |xs|
  {
    var ks := Keys(xs, key);
    if |xs| > 1 {
      var rest := SortByDescending(xs[1..], key);
      FirstOfSortIsFirstMaximum(xs[1..], key);
      InsertKeepsOrder(xs[0], rest, key);
      assert Keys(xs[1..], key) == ks[1..];
      var j := 1 + ArgMaxFirst(ks[1..]);
      assert rest[0] == xs[j];
      assert ks[0] == key(xs[0]) && ks[j] == key(rest[0]);
      assert ArgMaxFirst(ks) == if ks[0] >= ks[j] then 0 else j;
    }
  }
}
