/**
 * `Array.prototype.sort` with a numeric comparator. The ECMAScript standard
 * requires the sort to be stable; the model is a stable insertion sort: an
 * element goes in front of the first element whose key is not smaller.
 */
module Sorting {

  ghost predicate SortedBy<T>(s: seq<T>, key: T -> int)
  {
    forall i, j :: 0 <= i < j < |s| ==> key(s[i]) <= key(s[j])
  }

  ghost predicate SortedDescBy<T>(s: seq<T>, key: T -> int)
  {
    forall i, j :: 0 <= i < j < |s| ==> key(s[i]) >= key(s[j])
  }

  function Insert<T>(x: T, s: seq<T>, key: T -> int): (r: seq<T>)
    requires SortedBy(s, key)
    ensures multiset(r) == multiset(s) + multiset{x}
    ensures |r| == |s| + 1
    ensures SortedBy(r, key)
  {
    if s == [] then [x]
    else if key(x) <= key(s[0]) then [x] + s
    else
      var t := Insert(x, s[1..], key);
      assert s == [s[0]] + s[1..];
      BoundedByHead(x, s, t, key);
      ConsSorted(s[0], t, key);
      [s[0]] + t
  }

  /** Whatever is inserted after the head of a sorted list has a key no smaller than the head's. */
  lemma BoundedByHead<T>(x: T, s: seq<T>, t: seq<T>, key: T -> int)
    requires SortedBy(s, key) && s != [] && key(s[0]) < key(x)
    requires multiset(t) == multiset(s[1..]) + multiset{x}
    ensures forall k :: 0 <= k < |t| ==> key(s[0]) <= key(t[k])
  {
    forall k | 0 <= k < |t| ensures key(s[0]) <= key(t[k]) {
      assert t[k] in multiset(t);
      if t[k] != x {
        assert t[k] in multiset(s[1..]);
        var m :| 0 <= m < |s[1..]| && s[1..][m] == t[k];
        assert s[m + 1] == t[k];
      }
    }
  }

  lemma ConsSorted<T>(h: T, t: seq<T>, key: T -> int)
    requires SortedBy(t, key) && forall k :: 0 <= k < |t| ==> key(h) <= key(t[k])
    ensures SortedBy([h] + t, key)
  {
    var r := [h] + t;
    forall i, j | 0 <= i < j < |r| ensures key(r[i]) <= key(r[j]) {
      assert r[j] == t[j - 1];
      if i > 0 {
        assert r[i] == t[i - 1];
      }
    }
  }

  /**
   * `s` sorted by ascending key. `Insert` puts an element before the equal
   * keys that follow it, so equal keys keep their original order; the
   * contract states the order and the permutation only.
   */
  function SortBy<T>(s: seq<T>, key: T -> int): (r: seq<T>)
    ensures multiset(r) == multiset(s)
    ensures |r| == |s|
    ensures SortedBy(r, key)
  {
    if s == [] then []
    else
      assert s == [s[0]] + s[1..];
      Insert(s[0], SortBy(s[1..], key), key)
  }

  /** `s` sorted by descending key (comparator `key(b) - key(a)`). */
  function SortDescBy<T>(s: seq<T>, key: T -> int): (r: seq<T>)
    ensures multiset(r) == multiset(s)
    ensures |r| == |s|
    ensures SortedDescBy(r, key)
  {
    var neg := (x: T) => -key(x);
    var r := SortBy(s, neg);
    assert forall i, j :: 0 <= i < j < |r| ==> neg(r[i]) <= neg(r[j]);
    r
  }

  /** Sorting a list that is already in order changes nothing: ties keep their places. */
  lemma {:induction false} SortBySorted<T>(s: seq<T>, key: T -> int)
    requires SortedBy(s, key)
    ensures SortBy(s, key) == s
  {
    if s != [] {
      SortBySorted(s[1..], key);
      assert s == [s[0]] + s[1..];
    }
  }

  lemma SortDescBySorted<T>(s: seq<T>, key: T -> int)
    requires SortedDescBy(s, key)
    ensures SortDescBy(s, key) == s
  {
    SortBySorted(s, (x: T) => -key(x));
  }

  /** Two lists in descending order, every key of the first at least every key of the second, append in order. */
  lemma SortedDescAppend<T>(a: seq<T>, b: seq<T>, key: T -> int, bound: int)
    requires SortedDescBy(a, key) && SortedDescBy(b, key)
    requires forall i :: 0 <= i < |a| ==> key(a[i]) >= bound
    requires forall i :: 0 <= i < |b| ==> bound >= key(b[i])
    ensures SortedDescBy(a + b, key)
  {
    forall i, j | 0 <= i < j < |a + b| ensures key((a + b)[i]) >= key((a + b)[j]) {
      if j >= |a| && i < |a| {
        assert key((a + b)[i]) >= bound >= key(b[j - |a|]);
      } else if i >= |a| {
        assert key(b[i - |a|]) >= key(b[j - |a|]);
      }
    }
  }
}
