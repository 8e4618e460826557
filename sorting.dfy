/** Descending order by a numeric key, as the store's `sort(field, -1)`
    and `$sort: {field: -1}` stages deliver it. */
module Sorting {

  predicate SortedDesc<T>(s: seq<T>, key: T -> real) {
    forall i, j :: 0 <= i < j < |s| ==> key(s[i]) >= key(s[j])
  }

  /** Places `x` before the first element whose key is not larger, so
      `x` goes in front of the elements whose key equals its own. */
  function Insert<T>(x: T, s: seq<T>, key: T -> real): (r: seq<T>)
    requires SortedDesc(s, key)
    ensures SortedDesc(r, key)
    ensures multiset(r) == multiset(s) + multiset{x}
    ensures r[0] == x || r[0] == s[0]
    decreases |s|
  {
    if |s| == 0 || key(x) >= key(s[0]) then [x] + s
    else
      var rest := Insert(x, s[1..], key);
      HeadTail(s);
      ConsSorted(s[0], rest, key);
      [s[0]] + rest
  }

  /** An element no smaller than the head of a sorted sequence can go in front. */
  lemma ConsSorted<T>(h: T, s: seq<T>, key: T -> real)
    requires SortedDesc(s, key) && |s| > 0 && key(h) >= key(s[0])
    ensures SortedDesc([h] + s, key)
  {
    var r := [h] + s;
    forall i, j | 0 <= i < j < |r| ensures key(r[i]) >= key(r[j]) {
      if i == 0 {
        assert r[j] == s[j - 1];
      } else {
        assert r[i] == s[i - 1] && r[j] == s[j - 1];
      }
    }
  }

  lemma HeadTail<T>(s: seq<T>)
    requires |s| > 0
    ensures multiset(s) == multiset{s[0]} + multiset(s[1..])
  {
    assert s == [s[0]] + s[1..];
  }

  /** The elements of `xs` in descending key order. Elements are inserted
      from the back, so those with equal keys keep their order in `xs`. */
  function SortDesc<T>(xs: seq<T>, key: T -> real): (r: seq<T>)
    ensures SortedDesc(r, key)
    ensures multiset(r) == multiset(xs)
    decreases |xs|
  {
    if |xs| == 0 then []
    else
      assert xs == [xs[0]] + xs[1..];
      Insert(xs[0], SortDesc(xs[1..], key), key)
  }

  /** Sorting keeps the length and the elements. */
  lemma SortDescElements<T>(xs: seq<T>, key: T -> real, x: T)
    ensures |SortDesc(xs, key)| == |xs|
    ensures x in SortDesc(xs, key) <==> x in xs
  {
    var r := SortDesc(xs, key);
    assert |r| == |multiset(r)| == |multiset(xs)| == |xs|;
    assert x in r <==> x in multiset(r);
  }
}
