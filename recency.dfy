/** The recency order of an LRU cache as a sequence of keys, most recently
    used first. These are the reference definitions that the linked cache
    is proved against: promoting a key on a hit, inserting a key at the
    front (evicting the last key when full) and removing a key. */
module Recency {

  predicate Distinct<T(==)>(s: seq<T>)
  {
    forall i, j :: 0 <= i < j < |s| ==> s[i] != s[j]
  }

  /** `s` with every occurrence of `x` taken out, order kept. */
  function Without<T(==)>(s: seq<T>, x: T): seq<T>
  {
    if s == [] then []
    else if s[0] == x then Without(s[1..], x)
    else [s[0]] + Without(s[1..], x)
  }

  /** A hit moves the key to the front. */
  function Promote<T(==)>(s: seq<T>, x: T): seq<T>
  {
    [x] + Without(s, x)
  }

  /** An insertion puts the key in front; if the order already holds
      `cap` keys, the last one (least recently used) is dropped. */
  function Insert<T>(s: seq<T>, x: T, cap: nat): seq<T>
    requires |s| <= cap
    requires 1 <= cap
  {
    if |s| == cap then [x] + s[..|s| - 1] else [x] + s
  }

  /** Inserting into a full order is prepending and dropping the last key. */
  lemma InsertFull<T>(s: seq<T>, x: T, cap: nat)
    requires |s| == cap && 1 <= cap
    ensures Insert(s, x, cap) == ([x] + s)[..|s|]
  {
    assert ([x] + s)[..|s|] == [x] + s[..|s| - 1];
  }

  lemma {:induction false} WithoutMembers<T>(s: seq<T>, x: T)
    ensures forall y :: y in Without(s, x) <==> y in s && y != x
  {
    if s != [] {
      WithoutMembers(s[1..], x);
      assert forall y :: y in s <==> y == s[0] || y in s[1..];
    }
  }

  lemma {:induction false} WithoutAbsent<T>(s: seq<T>, x: T)
    requires x !in s
    ensures Without(s, x) == s
  {
    if s != [] {
      WithoutAbsent(s[1..], x);
      assert s == [s[0]] + s[1..];
    }
  }

  /** In a duplicate-free order, removing the key at position `k` is
      splicing that one position out. */
  lemma {:induction false} WithoutAt<T>(s: seq<T>, k: nat)
    requires Distinct(s)
    requires k < |s|
    ensures Without(s, s[k]) == s[..k] + s[k + 1..]
  {
    if k == 0 {
      assert s[0] !in s[1..];
      WithoutAbsent(s[1..], s[0]);
    } else {
      assert Distinct(s[1..]);
      WithoutAt(s[1..], k - 1);
      assert s[1..][k - 1] == s[k];
      assert s[1..][..k - 1] == s[1..k];
      assert s[1..][k..] == s[k + 1..];
      assert s[..k] == [s[0]] + s[1..k];
    }
  }

  lemma WithoutDistinct<T>(s: seq<T>, k: nat)
    requires Distinct(s)
    requires k < |s|
    ensures Distinct(Without(s, s[k]))
    ensures |Without(s, s[k])| == |s| - 1
  {
    WithoutAt(s, k);
  }

  /** Promoting the key that is already in front changes nothing. */
  lemma PromoteHead<T>(s: seq<T>)
    requires Distinct(s)
    requires s != []
    ensures Promote(s, s[0]) == s
  {
    WithoutAt(s, 0);
  }

  /** A promotion keeps the same keys, the same length and no duplicates,
      and puts the key in front. */
  lemma PromoteKeepsKeys<T>(s: seq<T>, k: nat)
    requires Distinct(s)
    requires k < |s|
    ensures var p := Promote(s, s[k]);
      && |p| == |s| && Distinct(p) && p[0] == s[k]
      && (forall y :: y in p <==> y in s)
  {
    WithoutDistinct(s, k);
    WithoutMembers(s, s[k]);
    var w := Without(s, s[k]);
    assert s[k] !in w;
    forall i, j | 0 <= i < j < |w| + 1
      ensures ([s[k]] + w)[i] != ([s[k]] + w)[j]
    {
      if i > 0 {
        assert ([s[k]] + w)[i] == w[i - 1];
      }
    }
  }

  /** Re-inserting a key after removing it is promoting it: the cache
      implements a hit on a non-head entry as a delete followed by an add. */
  lemma PromoteIsReinsert<T>(s: seq<T>, k: nat, cap: nat)
    requires Distinct(s)
    requires k < |s| <= cap
    ensures |Without(s, s[k])| < cap
    ensures Insert(Without(s, s[k]), s[k], cap) == Promote(s, s[k])
  {
    WithoutDistinct(s, k);
  }

  /** An insertion never exceeds the capacity, keeps the order free of
      duplicates and drops exactly the last key when the order is full. */
  lemma InsertBounded<T>(s: seq<T>, x: T, cap: nat)
    requires |s| <= cap
    requires 1 <= cap
    requires Distinct(s)
    requires x !in s
    ensures var r := Insert(s, x, cap);
      && |r| <= cap && Distinct(r) && r[0] == x
      && (|s| < cap ==> |r| == |s| + 1 && (forall y :: y in r <==> y == x || y in s))
      && (|s| == cap ==>
            && |r| == |s| && s[|s| - 1] !in r
            && (forall y :: y in r <==> y == x || (y in s && y != s[|s| - 1])))
  {
    if |s| == cap {
      var r := Insert(s, x, cap);
      assert r[1..] == s[..|s| - 1];
      forall y ensures y in s <==> y in s[..|s| - 1] || y == s[|s| - 1] {
        assert s == s[..|s| - 1] + [s[|s| - 1]];
      }
    }
  }

  /** An example of the LRU policy: with capacity 2, adding
      A, B, C leaves {C, B}; a hit on B makes it most recent, so adding D
      evicts C and leaves {D, B}. */
  lemma LruExample(a: int, b: int, c: int, d: int)
    requires a != b && a != c && a != d && b != c && b != d && c != d
    ensures Insert(Insert(Insert([], a, 2), b, 2), c, 2) == [c, b]
    ensures Promote([c, b], b) == [b, c]
    ensures Insert([b, c], d, 2) == [d, b]
  {
    assert Insert(Insert([], a, 2), b, 2) == [b, a];
    assert [c, b][1..] == [b];
    assert [b][1..] == [];
    assert Without([b], b) == [];
    assert Without([c, b], b) == [c];
  }
}
