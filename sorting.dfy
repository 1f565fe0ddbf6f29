/**
 * The ORDER BY clauses of the read queries, as one insertion sort on a
 * two-part key compared lexicographically, and LIMIT. SQL leaves the order
 * of rows whose keys tie open; the sort keeps them in table order, which is
 * one of the orders the database may return.
 */
module Sorting {

  datatype Key = Key(major: int, minor: int)

  predicate KeyLe(a: Key, b: Key) {
    a.major < b.major || (a.major == b.major && a.minor <= b.minor)
  }

  ghost predicate SortedBy<T>(s: seq<T>, key: T -> Key) {
    forall i, j :: 0 <= i < j < |s| ==> KeyLe(key(s[i]), key(s[j]))
  }

  /** Places `x` before the first element whose key is not smaller. */
  function InsertBy<T(==)>(x: T, s: seq<T>, key: T -> Key): (r: seq<T>)
    ensures multiset(r) == multiset(s) + multiset{x}
    ensures SortedBy(s, key) ==> SortedBy(r, key)
  {
    if s == [] then [x]
    else if KeyLe(key(x), key(s[0])) then [x] + s
    else
      var rest := InsertBy(x, s[1..], key);
      assert s == [s[0]] + s[1..];
      assert SortedBy(s, key) ==> SortedBy([s[0]] + rest, key) by {
        if SortedBy(s, key) {
          ConsSorted(s[0], x, s[1..], rest, key);
        }
      }
      [s[0]] + rest
  }

  /** A head no greater than the tail's elements and the inserted one stays in front. */
  lemma ConsSorted<T>(h: T, x: T, tail: seq<T>, rest: seq<T>, key: T -> Key)
    requires SortedBy([h] + tail, key) && SortedBy(rest, key)
    requires KeyLe(key(h), key(x))
    requires multiset(rest) == multiset(tail) + multiset{x}
    ensures SortedBy([h] + rest, key)
  {
    forall j | 0 <= j < |rest| ensures KeyLe(key(h), key(rest[j])) {
      assert rest[j] in multiset(rest);
      if rest[j] != x {
        assert rest[j] in multiset(tail);
        var k :| 0 <= k < |tail| && tail[k] == rest[j];
        assert ([h] + tail)[0] == h && ([h] + tail)[k + 1] == rest[j];
      }
    }
  }

  /** The elements of `s` ordered by `key`, ties in their original order. */
  function SortBy<T(==)>(s: seq<T>, key: T -> Key): (r: seq<T>)
    ensures multiset(r) == multiset(s)
    ensures SortedBy(r, key)
  {
    if s == [] then []
    else
      assert s == [s[0]] + s[1..];
      InsertBy(s[0], SortBy(s[1..], key), key)
  }

  /** The first `n` elements, or all of them when there are fewer. */
  function Take<T>(s: seq<T>, n: nat): (r: seq<T>)
    ensures |r| == if |s| < n then |s| else n
    ensures r <= s
  {
    if |s| <= n then s else s[..n]
  }

  /** When every key ties, the rows stay in table order. */
  lemma {:induction false} SortByTied<T>(s: seq<T>, key: T -> Key, k: Key)
    requires forall i :: 0 <= i < |s| ==> key(s[i]) == k
    ensures SortBy(s, key) == s
  {
    if s != [] {
      SortByTied(s[1..], key, k);
      assert s == [s[0]] + s[1..];
    }
  }

  /**
   * LIMIT after ORDER BY: the rows kept are the first in the order, so every
   * row left out sorts after every row kept.
   */
  lemma TakeSorted<T>(s: seq<T>, n: nat, key: T -> Key)
    requires SortedBy(s, key)
    ensures SortedBy(Take(s, n), key)
    ensures multiset(s) - multiset(Take(s, n)) == multiset(s[|Take(s, n)|..])
    ensures forall i, j :: 0 <= i < |Take(s, n)| <= j < |s| ==> KeyLe(key(Take(s, n)[i]), key(s[j]))
  {
    var t := Take(s, n);
    assert s == t + s[|t|..];
  }
}
