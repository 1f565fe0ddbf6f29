/** Facts about sequence concatenation and mapping that the proofs use by name. */
module Sequences {

  lemma AppendAssoc<T>(a: seq<T>, b: seq<T>, c: seq<T>)
    ensures a + b + c == a + (b + c)
  {
  }

  /** Where the elements of three concatenated runs are. */
  lemma ThreeRuns<T>(a: seq<T>, b: seq<T>, c: seq<T>)
    ensures |a + b + c| == |a| + |b| + |c|
    ensures forall k :: 0 <= k < |a| ==> (a + b + c)[k] == a[k]
    ensures forall k :: |a| <= k < |a| + |b| ==> (a + b + c)[k] == b[k - |a|]
    ensures forall k :: |a| + |b| <= k < |a| + |b| + |c| ==> (a + b + c)[k] == c[k - |a| - |b|]
  {
  }

  /** `s.map(f)`. */
  function Map<T, U>(s: seq<T>, f: T -> U): (r: seq<U>)
    ensures |r| == |s|
    ensures forall i :: 0 <= i < |s| ==> r[i] == f(s[i])
  {
    seq(|s|, i requires 0 <= i < |s| => f(s[i]))
  }

  /** Mapping commutes with concatenation. */
  lemma MapConcat<T, U>(a: seq<T>, b: seq<T>, f: T -> U)
    ensures Map(a + b, f) == Map(a, f) + Map(b, f)
  {
    var l, r := Map(a + b, f), Map(a, f) + Map(b, f);
    forall k | 0 <= k < |l| ensures l[k] == r[k] {
      if k < |a| { assert (a + b)[k] == a[k]; } else { assert (a + b)[k] == b[k - |a|]; }
    }
  }

  /** Element k and the elements around it make up the multiset. */
  lemma MultisetAround<T>(b: seq<T>, k: nat)
    requires k < |b|
    ensures multiset(b) == multiset(b[..k] + b[k + 1..]) + multiset{b[k]}
  {
    var before, after := b[..k], b[k + 1..];
    assert b == before + [b[k]] + after;
    assert multiset(before + after) == multiset(before) + multiset(after);
  }

  /** The image of element k and the images of the elements around it make up the mapped multiset. */
  lemma MapAround<T, U>(b: seq<T>, k: nat, f: T -> U)
    requires k < |b|
    ensures multiset(Map(b, f)) == multiset(Map(b[..k] + b[k + 1..], f)) + multiset{f(b[k])}
  {
    var before, after := b[..k], b[k + 1..];
    assert b == (before + [b[k]]) + after;
    MapConcat(before + [b[k]], after, f);
    MapConcat(before, [b[k]], f);
    MapConcat(before, after, f);
    var mb, ma := Map(before, f), Map(after, f);
    assert multiset(mb + [f(b[k])] + ma) == multiset(mb) + multiset{f(b[k])} + multiset(ma);
    assert multiset(mb + ma) == multiset(mb) + multiset(ma);
  }

  /** Mapping a reordering gives a reordering of the images: the same images, each as many times. */
  lemma {:induction false} MapPermutation<T, U>(a: seq<T>, b: seq<T>, f: T -> U)
    requires multiset(a) == multiset(b)
    ensures multiset(Map(a, f)) == multiset(Map(b, f))
    decreases |a|
  {
    if a == [] {
      assert |multiset(b)| == 0;
    } else {
      assert a[0] in multiset(b);
      var k :| 0 <= k < |b| && b[k] == a[0];
      var others := b[..k] + b[k + 1..];
      MultisetAround(b, k);
      assert a == [a[0]] + a[1..];
      forall y ensures multiset(a[1..])[y] == multiset(others)[y] {
        assert multiset(a)[y] == multiset(a[1..])[y] + multiset{a[0]}[y];
        assert multiset(b)[y] == multiset(others)[y] + multiset{b[k]}[y];
      }
      assert multiset(a[1..]) == multiset(others);
      MapPermutation(a[1..], others, f);
      MapAround(b, k, f);
      assert a[..0] + a[1..] == a[1..];
      MapAround(a, 0, f);
      var ma, mb := multiset(Map(a[1..], f)), multiset(Map(others, f));
      assert ma == mb;
      assert multiset(Map(a, f)) == ma + multiset{f(a[0])};
      assert multiset(Map(b, f)) == mb + multiset{f(a[0])};
    }
  }
}
