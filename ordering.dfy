/**
 * Query shapes shared by the routes: a sort on a two-part ascending key, as
 * `.sort({a: 1, b: 1})`, and `.limit(n)`. The database promises no order
 * among equal keys; the model fixes one, insertion order, which is one of
 * the orders it may return.
 */
module Ordering {

  /** A sort key compared lexicographically: first component, then second. */
  type Key = (int, int)

  predicate KeyLe(a: Key, b: Key) {
    a.0 < b.0 || (a.0 == b.0 && a.1 <= b.1)
  }

  lemma KeyLeTotal(a: Key, b: Key)
    ensures KeyLe(a, b) || KeyLe(b, a)
  {
  }

  predicate SortedBy<T>(s: seq<T>, key: T -> Key) {
    forall i, j :: 0 <= i < j < |s| ==> KeyLe(key(s[i]), key(s[j]))
  }

  function Insert<T>(x: T, s: seq<T>, key: T -> Key): (r: seq<T>)
    requires SortedBy(s, key)
    ensures multiset(r) == multiset(s) + multiset{x}
    ensures SortedBy(r, key)
    decreases |s|
  {
    if s == [] then [x]
    else if KeyLe(key(x), key(s[0])) then
      BelowSorted(x, s, key);
      [x] + s
    else
      var rest := Insert(x, s[1..], key);
      HeadBelowInserted(x, s, key, rest);
      ConsSorted(s[0], rest, key);
      [s[0]] + rest
  }

  /** A sorted sequence stays sorted behind a key no greater than any of its own. */
  lemma ConsSorted<T>(h: T, s: seq<T>, key: T -> Key)
    requires SortedBy(s, key)
    requires forall k :: 0 <= k < |s| ==> KeyLe(key(h), key(s[k]))
    ensures SortedBy([h] + s, key)
  {
    var r := [h] + s;
    forall i, j | 0 <= i < j < |r|
      ensures KeyLe(key(r[i]), key(r[j]))
    {
      assert r[j] == s[j - 1];
      if i > 0 {
        assert r[i] == s[i - 1];
      }
    }
  }

  /** An element whose key is no greater than the head of a sorted sequence is no greater than all of it. */
  lemma BelowSorted<T>(x: T, s: seq<T>, key: T -> Key)
    requires SortedBy(s, key) && s != [] && KeyLe(key(x), key(s[0]))
    ensures SortedBy([x] + s, key)
  {
    ConsSorted(x, s, key);
  }

  /** The head of a sorted sequence is no greater than anything of the rest with a larger element inserted. */
  lemma HeadBelowInserted<T>(x: T, s: seq<T>, key: T -> Key, rest: seq<T>)
    requires SortedBy(s, key) && s != [] && !KeyLe(key(x), key(s[0]))
    requires multiset(rest) == multiset(s[1..]) + multiset{x}
    ensures forall k :: 0 <= k < |rest| ==> KeyLe(key(s[0]), key(rest[k]))
    ensures multiset([s[0]] + rest) == multiset(s) + multiset{x}
  {
    assert s == [s[0]] + s[1..];
    forall k | 0 <= k < |rest|
      ensures KeyLe(key(s[0]), key(rest[k]))
    {
      assert rest[k] in multiset(rest);
      assert rest[k] == x || rest[k] in multiset(s[1..]);
      KeyLeTotal(key(x), key(s[0]));
      if rest[k] != x {
        var j :| 1 <= j < |s| && s[j] == rest[k];
      }
    }
  }

  /**
   * The elements of `s` in ascending key order; an element is placed before the
   * later elements with an equal key, so ties keep their original order.
   */
  function SortByKey<T>(s: seq<T>, key: T -> Key): (r: seq<T>)
    ensures multiset(r) == multiset(s)
    ensures |r| == |s|
    ensures SortedBy(r, key)
    decreases |s|
  {
    if s == [] then []
    else
      var rest := SortByKey(s[1..], key);
      assert s == [s[0]] + s[1..];
      Insert(s[0], rest, key)
  }

  /** `.limit(n)` */
  function Take<T>(s: seq<T>, n: nat): (r: seq<T>)
    ensures |r| == if n <= |s| then n else |s|
    ensures r <= s
  {
    if n <= |s| then s[..n] else s
  }

  /** In a sorted sequence, every element of the first `n` has a key no greater than any later one. */
  lemma TakeIsSmallest<T>(s: seq<T>, key: T -> Key, n: nat)
    requires SortedBy(s, key)
    ensures forall i, j :: 0 <= i < |Take(s, n)| <= j < |s| ==> KeyLe(key(Take(s, n)[i]), key(s[j]))
  {
  }

  lemma SortedMembership<T>(s: seq<T>, key: T -> Key, x: T)
    ensures x in SortByKey(s, key) <==> x in s
  {
    assert x in multiset(SortByKey(s, key)) <==> x in multiset(s);
  }
}
