/** The LRU playlist cache of src/utils/playlist-cache.js: an index from
    playlist id to a node of a doubly-linked recency list. The head is the
    most recently used playlist and the tail the next to be evicted.

    Nodes name their neighbours by playlist id (the index key), so a link is
    a key into `cache`. The ghost field `order` is the recency list read from
    head to tail; `Valid()` ties it to the links. The behaviour is the one the
    class documents (an LRU cache); where the source's pointer updates do not
    achieve it, module CacheAsWritten models them as written. */
module LruCache {
  import opened Wrappers
  import opened Tracks
  import Recency

  /** One entry of the cache: a playlist's track map and its neighbours in
      recency order (`prev` is more recent, `next` less recent). */
  datatype Node = Node(id: string, tracks: TrackMap, prev: Option<string>, next: Option<string>)

  /** The node at position `i` of `order` links to positions `i - 1` and
      `i + 1`, and to nothing past either end. */
  ghost predicate NodeLinked(order: seq<string>, cache: map<string, Node>, i: int)
    requires 0 <= i < |order|
  {
    && order[i] in cache
    && cache[order[i]].id == order[i]
    && cache[order[i]].prev == (if i == 0 then None else Some(order[i - 1]))
    && cache[order[i]].next == (if i == |order| - 1 then None else Some(order[i + 1]))
  }

  /** The `prev`/`next` links, `head` and `tail` are exactly those of the
      list `order`, and there are as many nodes as list positions; it
      follows (LinkedDistinct, LinkedIndexed) that `order` lists every
      indexed node exactly once. */
  ghost predicate Linked(order: seq<string>, cache: map<string, Node>,
                         head: Option<string>, tail: Option<string>)
  {
    && |cache| == |order|
    && (forall i {:trigger NodeLinked(order, cache, i)} :: 0 <= i < |order| ==> NodeLinked(order, cache, i))
    && head == HeadOf(order)
    && tail == TailOf(order)
  }

  /** The ids met by following `next` links from `from`, at most `fuel` of them. */
  ghost function NextChain(cache: map<string, Node>, from: Option<string>, fuel: nat): seq<string>
    decreases fuel
  {
    if fuel == 0 || from.None? || from.value !in cache then []
    else [from.value] + NextChain(cache, cache[from.value].next, fuel - 1)
  }

  /** The ids met by following `prev` links from `from`, at most `fuel` of them. */
  ghost function PrevChain(cache: map<string, Node>, from: Option<string>, fuel: nat): seq<string>
    decreases fuel
  {
    if fuel == 0 || from.None? || from.value !in cache then []
    else [from.value] + PrevChain(cache, cache[from.value].prev, fuel - 1)
  }

  function Reverse<T>(s: seq<T>): seq<T>
  {
    if s == [] then [] else Reverse(s[1..]) + [s[0]]
  }

  lemma {:induction false} NextChainFrom(order: seq<string>, cache: map<string, Node>,
                                         head: Option<string>, tail: Option<string>, k: nat)
    requires Linked(order, cache, head, tail)
    requires k <= |order|
    ensures NextChain(cache, if k < |order| then Some(order[k]) else None, |order| - k) == order[k..]
    decreases |order| - k
  {
    if k < |order| {
      assert NodeLinked(order, cache, k);
      NextChainFrom(order, cache, head, tail, k + 1);
      assert order[k..] == [order[k]] + order[k + 1..];
    }
  }

  lemma {:induction false} PrevChainFrom(order: seq<string>, cache: map<string, Node>,
                                         head: Option<string>, tail: Option<string>, k: nat)
    requires Linked(order, cache, head, tail)
    requires k <= |order|
    ensures PrevChain(cache, if 0 < k then Some(order[k - 1]) else None, k) == Reverse(order[..k])
  {
    if 0 < k {
      assert NodeLinked(order, cache, k - 1);
      PrevChainFrom(order, cache, head, tail, k - 1);
      var p := order[..k];
      assert p[1..] + [p[0]] != [] ==> true;
      ReverseSnoc(order[..k - 1], order[k - 1]);
      assert order[..k] == order[..k - 1] + [order[k - 1]];
    }
  }

  lemma {:induction false} ReverseSnoc<T>(s: seq<T>, x: T)
    ensures Reverse(s + [x]) == [x] + Reverse(s)
  {
    if s != [] {
      assert (s + [x])[1..] == s[1..] + [x];
      ReverseSnoc(s[1..], x);
    } else {
      assert Reverse([x]) == Reverse([x][1..]) + [x];
    }
  }

  /** The `next` chain from the head and the `prev` chain from the tail visit
      the indexed nodes in recency order and in reverse recency order, each
      exactly once; both chains stop at the ends. */
  lemma ChainsCoverIndex(order: seq<string>, cache: map<string, Node>,
                         head: Option<string>, tail: Option<string>)
    requires Linked(order, cache, head, tail)
    ensures NextChain(cache, head, |order|) == order
    ensures PrevChain(cache, tail, |order|) == Reverse(order)
    ensures order != [] ==> cache[order[|order| - 1]].next.None? && cache[order[0]].prev.None?
  {
    NextChainFrom(order, cache, head, tail, 0);
    PrevChainFrom(order, cache, head, tail, |order|);
    assert order[..|order|] == order;
    if order != [] {
      assert NodeLinked(order, cache, |order| - 1);
      assert NodeLinked(order, cache, 0);
    }
  }

  function HeadOf(order: seq<string>): Option<string>
  {
    if order == [] then None else Some(order[0])
  }

  function TailOf(order: seq<string>): Option<string>
  {
    if order == [] then None else Some(order[|order| - 1])
  }

  /** A linked list never repeats a node: equal entries would have equal
      predecessors, back to the head, which has none. */
  lemma LinkedDistinct(order: seq<string>, cache: map<string, Node>,
                       head: Option<string>, tail: Option<string>)
    requires Linked(order, cache, head, tail)
    ensures Recency.Distinct(order)
  {
    forall i, j | 0 <= i < j < |order| ensures order[i] != order[j] {
      NoRepeat(order, cache, head, tail, i, j);
    }
  }

  lemma {:induction false} NoRepeat(order: seq<string>, cache: map<string, Node>,
                                    head: Option<string>, tail: Option<string>, i: nat, j: nat)
    requires Linked(order, cache, head, tail)
    requires i < j < |order|
    ensures order[i] != order[j]
    decreases i
  {
    assert NodeLinked(order, cache, i);
    assert NodeLinked(order, cache, j);
    if i > 0 {
      NoRepeat(order, cache, head, tail, i - 1, j - 1);
    }
  }

  lemma LinkedIndexed(order: seq<string>, cache: map<string, Node>,
                      head: Option<string>, tail: Option<string>)
    requires Linked(order, cache, head, tail)
    ensures Recency.Distinct(order)
    ensures forall i :: 0 <= i < |order| ==> order[i] in cache
    ensures forall id :: id in cache <==> id in order
  {
    LinkedDistinct(order, cache, head, tail);
    forall i | 0 <= i < |order| ensures order[i] in cache {
      assert NodeLinked(order, cache, i);
    }
    var listed := set i | 0 <= i < |order| :: order[i];
    ListedCount(order);
    SameCountSubset(listed, cache.Keys);
  }

  /** A duplicate-free list has as many distinct elements as positions. */
  lemma {:induction false} ListedCount(order: seq<string>)
    requires Recency.Distinct(order)
    ensures |set i | 0 <= i < |order| :: order[i]| == |order|
  {
    if order != [] {
      var rest := order[1..];
      assert Recency.Distinct(rest);
      ListedCount(rest);
      var all := set i | 0 <= i < |order| :: order[i];
      var tl := set i | 0 <= i < |rest| :: rest[i];
      assert all == {order[0]} + tl by {
        forall x | x in all ensures x in {order[0]} + tl {
          var i :| 0 <= i < |order| && order[i] == x;
          if i > 0 { assert rest[i - 1] == x; }
        }
        forall x | x in tl ensures x in all {
          var i :| 0 <= i < |rest| && rest[i] == x;
          assert order[i + 1] == x;
        }
      }
      forall i | 0 <= i < |rest| ensures rest[i] != order[0] {
        assert rest[i] == order[i + 1];
      }
    }
  }

  /** A subset with as many elements as its superset is all of it. */
  lemma SameCountSubset(a: set<string>, b: set<string>)
    requires a <= b && |a| == |b|
    ensures a == b
  {
    assert b * a == a;
    assert |b - a| == 0;
    forall x | x in b ensures x in a {
      assert x !in b - a;
    }
  }

  /** The map after putting a new node for `id` in front of the list: the
      new node links to the old head, and the old head links back to it. */
  ghost function Prepended(cache: map<string, Node>, order: seq<string>, id: string, tracks: TrackMap): (r: map<string, Node>)
    ensures id in r && r[id].tracks == tracks
  {
    var c := cache[id := Node(id, tracks, None, HeadOf(order))];
    if order == [] || order[0] !in c then c else c[order[0] := c[order[0]].(prev := Some(id))]
  }

  lemma LinkedPrepend(order: seq<string>, cache: map<string, Node>, id: string, tracks: TrackMap)
    requires Linked(order, cache, HeadOf(order), TailOf(order))
    requires id !in cache
    ensures Linked([id] + order, Prepended(cache, order, id, tracks),
                   Some(id), if order == [] then Some(id) else TailOf(order))
  {
    LinkedIndexed(order, cache, HeadOf(order), TailOf(order));
    PrependedNodes(order, cache, id, tracks);
    assert order != [] ==> ([id] + order)[|order|] == order[|order| - 1];
  }

  lemma PrependedNodes(order: seq<string>, cache: map<string, Node>, id: string, tracks: TrackMap)
    requires Linked(order, cache, HeadOf(order), TailOf(order))
    requires forall i :: 0 <= i < |order| ==> order[i] in cache
    requires id !in cache
    ensures var o, c := [id] + order, Prepended(cache, order, id, tracks);
      forall i {:trigger NodeLinked(o, c, i)} :: 0 <= i < |o| ==> NodeLinked(o, c, i)
  {
    LinkedDistinct(order, cache, HeadOf(order), TailOf(order));
    var o, c := [id] + order, Prepended(cache, order, id, tracks);
    forall i | 0 <= i < |o| ensures NodeLinked(o, c, i) {
      if i == 0 {
        assert order != [] ==> o[1] == order[0];
      } else {
        assert o[i] == order[i - 1];
        assert NodeLinked(order, cache, i - 1);
        assert i + 1 < |o| ==> o[i + 1] == order[i];
        assert i > 1 ==> o[i - 1] == order[i - 2];
        assert i > 1 ==> order[i - 1] != order[0];
      }
    }
  }

  /** The first and last entries of a linked list, and the last one's
      predecessor. */
  lemma Ends(order: seq<string>, cache: map<string, Node>, head: Option<string>, tail: Option<string>)
    requires Linked(order, cache, head, tail)
    ensures order != [] ==> order[0] in cache && order[|order| - 1] in cache
    ensures |order| >= 2 ==> && order[|order| - 2] in cache
                             && cache[order[|order| - 1]].prev == Some(order[|order| - 2])
                             && order[0] != order[|order| - 1]
  {
    LinkedDistinct(order, cache, head, tail);
    if order != [] {
      assert NodeLinked(order, cache, 0);
      assert NodeLinked(order, cache, |order| - 1);
    }
    if |order| >= 2 {
      assert NodeLinked(order, cache, |order| - 2);
    }
  }

  /** Dropping the last node: its predecessor `p` becomes the end. */
  lemma LinkedDropLast(order: seq<string>, cache: map<string, Node>, p: string, last: string)
    requires Linked(order, cache, HeadOf(order), TailOf(order))
    requires |order| >= 2
    requires p == order[|order| - 2] && last == order[|order| - 1]
    ensures p in cache
    ensures Linked(order[..|order| - 1], cache[p := cache[p].(next := None)] - {last},
                   HeadOf(order), Some(p))
  {
    LinkedIndexed(order, cache, HeadOf(order), TailOf(order));
    var n := |order|;
    var o, c := order[..n - 1], cache[p := cache[p].(next := None)] - {last};
    forall i | 0 <= i < |o| ensures NodeLinked(o, c, i) {
      assert o[i] == order[i];
      assert NodeLinked(order, cache, i);
    }
  }

  /** Adding to a full list: after the new node is put in front, the last
      node is dropped and its predecessor becomes the end. */
  lemma EvictAfterPrepend(order: seq<string>, cache: map<string, Node>, id: string, tracks: TrackMap, cap: nat)
    requires Linked(order, cache, HeadOf(order), TailOf(order))
    requires id !in cache
    requires |order| == cap && 1 <= cap
    ensures var c, n := Prepended(cache, order, id, tracks), [id] + order;
      && TailOf(order) == Some(order[|order| - 1])
      && order[|order| - 1] in c
      && c[order[|order| - 1]].prev == Some(n[|n| - 2])
      && n[|n| - 2] in c
      && Linked(n[..|n| - 1], c[n[|n| - 2] := c[n[|n| - 2]].(next := None)] - {order[|order| - 1]},
                Some(id), Some(n[|n| - 2]))
      && TracksOf(c[n[|n| - 2] := c[n[|n| - 2]].(next := None)] - {order[|order| - 1]})
         == (TracksOf(cache) - {order[|order| - 1]})[id := tracks]
      && n[..|n| - 1] == Recency.Insert(order, id, cap)
      && id in c[n[|n| - 2] := c[n[|n| - 2]].(next := None)] - {order[|order| - 1]}
      && (c[n[|n| - 2] := c[n[|n| - 2]].(next := None)] - {order[|order| - 1]})[id].tracks == tracks
  {
    var c, n := Prepended(cache, order, id, tracks), [id] + order;
    var last, p := order[|order| - 1], n[|n| - 2];
    assert n[|n| - 1] == last;
    LinkedPrepend(order, cache, id, tracks);
    TracksOfPrepended(cache, order, id, tracks);
    Ends(n, c, Some(id), TailOf(order));
    LinkedDropLast(n, c, p, last);
    TracksOfRelink(c, p, c[p].(next := None));
    TracksOfRemove(c[p := c[p].(next := None)], last);
    StoreRemoveCommute(TracksOf(cache), id, tracks, last);
    Recency.InsertFull(order, id, cap);
    Ends(order, cache, HeadOf(order), TailOf(order));
  }

  /** The index once the node for `x` is spliced out of the list: its
      predecessor's `next` and its successor's `prev` skip it, and its entry
      is removed. */
  function Unlinked(cache: map<string, Node>, x: string): map<string, Node>
    requires x in cache
    requires cache[x].prev.Some? ==> cache[x].prev.value in cache
    requires cache[x].next.Some? ==> cache[x].next.value in cache
  {
    SkipForward(SkipBackward(cache, cache[x]), cache[x]) - {x}
  }

  /** The predecessor of `node`, if any, now links forward past it. */
  function SkipBackward(cache: map<string, Node>, node: Node): (r: map<string, Node>)
    requires node.prev.Some? ==> node.prev.value in cache
    ensures r.Keys == cache.Keys
  {
    if node.prev.Some? then cache[node.prev.value := cache[node.prev.value].(next := node.next)] else cache
  }

  /** The successor of `node`, if any, now links back past it. */
  function SkipForward(cache: map<string, Node>, node: Node): (r: map<string, Node>)
    requires node.next.Some? ==> node.next.value in cache
    ensures r.Keys == cache.Keys
  {
    if node.next.Some? then cache[node.next.value := cache[node.next.value].(prev := node.prev)] else cache
  }

  /** Where `order[k]` sits: its links name its neighbours in the list. */
  lemma Neighbours(order: seq<string>, cache: map<string, Node>, k: nat)
    requires Linked(order, cache, HeadOf(order), TailOf(order))
    requires k < |order|
    ensures order[k] in cache
    ensures cache[order[k]].prev == (if k == 0 then None else Some(order[k - 1]))
    ensures cache[order[k]].next == (if k == |order| - 1 then None else Some(order[k + 1]))
    ensures k > 0 ==> order[k - 1] in cache
    ensures k + 1 < |order| ==> order[k + 1] in cache
    ensures k > 0 && k + 1 < |order| ==> order[k - 1] != order[k + 1]
  {
    LinkedDistinct(order, cache, HeadOf(order), TailOf(order));
    assert NodeLinked(order, cache, k);
    if k > 0 { assert NodeLinked(order, cache, k - 1); }
    if k + 1 < |order| { assert NodeLinked(order, cache, k + 1); }
  }

  /** The entry for `y` once `x` is spliced out: the predecessor of `x`
      skips forward past it and the successor skips back past it. */
  lemma UnlinkedAt(cache: map<string, Node>, x: string, y: string)
    requires x in cache
    requires cache[x].prev.Some? ==> cache[x].prev.value in cache
    requires cache[x].next.Some? ==> cache[x].next.value in cache
    requires cache[x].prev.Some? && cache[x].next.Some? ==> cache[x].prev != cache[x].next
    requires y in cache && y != x
    ensures y in Unlinked(cache, x)
    ensures Unlinked(cache, x)[y] ==
      (var n := if Some(y) == cache[x].prev then cache[y].(next := cache[x].next) else cache[y];
       if Some(y) == cache[x].next then n.(prev := cache[x].prev) else n)
  {
  }

  lemma UnlinkedSize(cache: map<string, Node>, x: string)
    requires x in cache
    requires cache[x].prev.Some? ==> cache[x].prev.value in cache
    requires cache[x].next.Some? ==> cache[x].next.value in cache
    ensures forall id :: id in Unlinked(cache, x) <==> id in cache && id != x
    ensures |Unlinked(cache, x)| == |cache| - 1
  {
  }

  lemma UnlinkedNodes(order: seq<string>, cache: map<string, Node>, k: nat)
    requires Linked(order, cache, HeadOf(order), TailOf(order))
    requires k < |order|
    ensures order[k] in cache
    ensures cache[order[k]].prev.Some? ==> cache[order[k]].prev.value in cache
    ensures cache[order[k]].next.Some? ==> cache[order[k]].next.value in cache
    ensures var o, c := order[..k] + order[k + 1..], Unlinked(cache, order[k]);
      forall i {:trigger NodeLinked(o, c, i)} :: 0 <= i < |o| ==> NodeLinked(o, c, i)
  {
    LinkedDistinct(order, cache, HeadOf(order), TailOf(order));
    Neighbours(order, cache, k);
    var o := order[..k] + order[k + 1..];
    forall i | 0 <= i < |o| ensures NodeLinked(o, Unlinked(cache, order[k]), i) {
      var j := if i < k then i else i + 1;
      assert o[i] == order[j];
      assert NodeLinked(order, cache, j);
      UnlinkedAt(cache, order[k], order[j]);
      if i > 0 { assert o[i - 1] == order[if i - 1 < k then i - 1 else i]; }
      if i + 1 < |o| { assert o[i + 1] == order[if i + 1 < k then i + 1 else i + 2]; }
    }
  }

  /** Splicing out the node at position `k` keeps the list linked; an end
      moves when the node was one. */
  lemma LinkedSplice(order: seq<string>, cache: map<string, Node>, k: nat)
    requires Linked(order, cache, HeadOf(order), TailOf(order))
    requires k < |order|
    ensures order[k] in cache
    ensures cache[order[k]].prev.Some? ==> cache[order[k]].prev.value in cache
    ensures cache[order[k]].next.Some? ==> cache[order[k]].next.value in cache
    ensures cache[order[k]].prev.Some? <==> k > 0
    ensures cache[order[k]].next.Some? <==> k + 1 < |order|
    ensures |Unlinked(cache, order[k])| == |cache| - 1
    ensures Linked(order[..k] + order[k + 1..], Unlinked(cache, order[k]),
                   if k > 0 then HeadOf(order) else cache[order[k]].next,
                   if k + 1 < |order| then TailOf(order) else cache[order[k]].prev)
  {
    LinkedDistinct(order, cache, HeadOf(order), TailOf(order));
    var o := order[..k] + order[k + 1..];
    assert k > 0 ==> o[0] == order[0];
    assert k == 0 && |o| > 0 ==> o[0] == order[1];
    assert k + 1 < |order| ==> o[|o| - 1] == order[|order| - 1];
    assert k + 1 == |order| && |o| > 0 ==> o[|o| - 1] == order[k - 1];
    Recency.WithoutDistinct(order, k);
    Recency.WithoutAt(order, k);
    Neighbours(order, cache, k);
    UnlinkedSize(cache, order[k]);
    UnlinkedNodes(order, cache, k);
  }

  /** Everything the cache's delete achieves, stated on the spliced map. */
  lemma SpliceEffect(order: seq<string>, cache: map<string, Node>, k: nat, x: string)
    requires Linked(order, cache, HeadOf(order), TailOf(order))
    requires k < |order| && order[k] == x
    ensures x in cache
    ensures cache[x].prev.Some? ==> cache[x].prev.value in cache
    ensures cache[x].next.Some? ==> cache[x].next.value in cache
    ensures var u := Unlinked(cache, x);
      && |u| == |cache| - 1
      && u.Keys == cache.Keys - {x}
      && TracksOf(u) == TracksOf(cache) - {x}
      && order[..k] + order[k + 1..] == Recency.Without(order, x)
      && Linked(order[..k] + order[k + 1..], u,
                if cache[x].prev.Some? then HeadOf(order) else cache[x].next,
                if cache[x].next.Some? then TailOf(order) else cache[x].prev)
  {
    LinkedDistinct(order, cache, HeadOf(order), TailOf(order));
    LinkedSplice(order, cache, k);
    Recency.WithoutAt(order, k);
    TracksOfUnlinked(cache, x);
    UnlinkedSize(cache, x);
  }

  /** Where a cached playlist sits in the recency list, and its links. */
  lemma Position(order: seq<string>, cache: map<string, Node>,
                 head: Option<string>, tail: Option<string>, id: string) returns (k: nat)
    requires Linked(order, cache, head, tail)
    requires id in cache
    ensures k < |order| && order[k] == id
    ensures cache[id].prev.Some? ==> cache[id].prev.value in cache
    ensures cache[id].next.Some? ==> cache[id].next.value in cache
    ensures cache[id].prev.Some? <==> k > 0
    ensures cache[id].next.Some? <==> k + 1 < |order|
  {
    LinkedIndexed(order, cache, head, tail);
    k :| 0 <= k < |order| && order[k] == id;
    assert NodeLinked(order, cache, k);
  }

  /** The track map of every indexed playlist. */
  ghost function TracksOf(cache: map<string, Node>): map<string, TrackMap>
  {
    map id | id in cache :: cache[id].tracks
  }

  /** Relinking a node leaves every track map as it was. */
  lemma TracksOfRelink(cache: map<string, Node>, id: string, n: Node)
    requires id in cache && n.tracks == cache[id].tracks
    ensures TracksOf(cache[id := n]) == TracksOf(cache)
  {
  }

  lemma TracksOfStore(cache: map<string, Node>, id: string, n: Node)
    ensures TracksOf(cache[id := n]) == TracksOf(cache)[id := n.tracks]
  {
  }

  lemma TracksOfUnlinked(cache: map<string, Node>, x: string)
    requires x in cache
    requires cache[x].prev.Some? ==> cache[x].prev.value in cache
    requires cache[x].next.Some? ==> cache[x].next.value in cache
    ensures TracksOf(Unlinked(cache, x)) == TracksOf(cache) - {x}
  {
  }

  lemma TracksOfPrepended(cache: map<string, Node>, order: seq<string>, id: string, tracks: TrackMap)
    requires id !in cache
    ensures TracksOf(Prepended(cache, order, id, tracks)) == TracksOf(cache)[id := tracks]
  {
  }

  lemma TracksOfRemove(cache: map<string, Node>, id: string)
    ensures TracksOf(cache - {id}) == TracksOf(cache) - {id}
  {
  }

  /** Changing a node's track map leaves the list linked as it was. */
  lemma LinkedRetrack(order: seq<string>, cache: map<string, Node>, head: Option<string>, tail: Option<string>,
                      id: string, tracks: TrackMap)
    requires Linked(order, cache, head, tail)
    requires id in cache
    ensures Linked(order, cache[id := cache[id].(tracks := tracks)], head, tail)
  {
    var c := cache[id := cache[id].(tracks := tracks)];
    forall i | 0 <= i < |order| ensures NodeLinked(order, c, i) {
      assert NodeLinked(order, cache, i);
    }
  }

  lemma ReinsertSame<V>(m: map<string, V>, k: string)
    requires k in m
    ensures (m - {k})[k := m[k]] == m
  {
  }

  lemma StoreRemoveCommute<V>(m: map<string, V>, k: string, v: V, x: string)
    requires k != x
    ensures m[k := v] - {x} == (m - {x})[k := v]
  {
  }

  /** The cache's invariant on the values of its fields: a positive
      capacity, a size that counts the entries and never exceeds the
      capacity, and links that form the recency list `order`. */
  ghost predicate CacheInvariant(maxSize: nat, size: nat, head: Option<string>, tail: Option<string>,
                                 cache: map<string, Node>, order: seq<string>)
  {
    && 1 <= maxSize
    && size == |cache|
    && size == |order|
    && size <= maxSize
    && Linked(order, cache, head, tail)
  }

  /** Deleting `x` (at position `k`) keeps the invariant. */
  lemma DeleteKeeps(maxSize: nat, size: nat, head: Option<string>, tail: Option<string>,
                    cache: map<string, Node>, order: seq<string>, k: nat, x: string)
    requires CacheInvariant(maxSize, size, head, tail, cache, order)
    requires k < |order| && order[k] == x
    ensures x in cache && size >= 1
    ensures cache[x].prev.Some? ==> cache[x].prev.value in cache
    ensures cache[x].next.Some? ==> cache[x].next.value in cache
    ensures var u := Unlinked(cache, x);
      && CacheInvariant(maxSize, size - 1,
                        if cache[x].prev == None then cache[x].next else head,
                        if cache[x].next == None then cache[x].prev else tail,
                        u, order[..k] + order[k + 1..])
      && u.Keys == cache.Keys - {x}
      && TracksOf(u) == TracksOf(cache) - {x}
      && order[..k] + order[k + 1..] == Recency.Without(order, x)
  {
    SpliceEffect(order, cache, k, x);
  }

  class PlaylistCache {
    var size: nat
    var head: Option<string>
    var tail: Option<string>
    var cache: map<string, Node>
    const maxSize: nat
    /** The recency list, most recently used first. */
    ghost var order: seq<string>

    ghost predicate Valid()
      reads this
    {
      CacheInvariant(maxSize, size, head, tail, cache, order)
    }

    /** The playlists held and their track maps. */
    ghost function Contents(): map<string, TrackMap>
      reads this
    {
      TracksOf(cache)
    }

    constructor (maxSize: nat)
      requires 1 <= maxSize
      ensures Valid()
      ensures this.maxSize == maxSize
      ensures order == [] && Contents() == map[]
    {
      this.maxSize := maxSize;
      size := 0;
      head := None;
      tail := None;
      cache := map[];
      order := [];
    }

    /** A miss returns None and changes nothing; a hit returns the playlist's
        track map and makes it the most recently used entry. */
    method Get(playlistId: string) returns (r: Option<TrackMap>)
      requires Valid()
      modifies this
      ensures Valid()
      ensures playlistId !in old(cache) ==> r == None && unchanged(this)
      ensures playlistId in old(cache) ==>
        && r == Some(old(cache[playlistId].tracks))
        && order == Recency.Promote(old(order), playlistId)
        && size == old(size)
        && Contents() == old(Contents())
      ensures old(head) == Some(playlistId) ==> unchanged(this)
    {
      if playlistId !in cache {
        return None;
      }
      ghost var o, c := order, cache;
      ghost var k := Position(o, cache, head, tail, playlistId);
      LinkedDistinct(o, cache, head, tail);
      var node := cache[playlistId];
      if node.prev != None {
        // Move the playlist to the head: unlink it, then add it again.
        DeletePlaylist(playlistId);
        Add(node.tracks, playlistId);
        Recency.PromoteIsReinsert(o, k, maxSize);
        ReinsertSame(TracksOf(c), playlistId);
      } else {
        Recency.PromoteHead(o);
      }
      r := Some(cache[playlistId].tracks);
    }

    /** Adds a playlist that is not cached as the most recently used entry;
        a full cache first loses its least recently used entry. */
    method Add(idDict: TrackMap, playlistId: string)
      requires Valid()
      requires playlistId !in cache
      modifies this
      ensures Valid()
      ensures order == Recency.Insert(old(order), playlistId, maxSize)
      ensures head == Some(playlistId) && playlistId in cache && cache[playlistId].tracks == idDict
      ensures old(size) < maxSize ==>
        size == old(size) + 1 && Contents() == old(Contents())[playlistId := idDict]
      ensures old(size) == maxSize ==>
        && size == old(size)
        && Contents() == (old(Contents()) - {old(order)[|old(order)| - 1]})[playlistId := idDict]
    {
      ghost var o := order;
      Ends(o, cache, head, tail);
      var playlist := Node(playlistId, idDict, None, head);
      cache := cache[playlistId := playlist];
      if size != 0 {
        var h := head.value;
        cache := cache[h := cache[h].(prev := Some(playlistId))];
        head := Some(playlistId);
      } else {
        head := Some(playlistId);
        tail := Some(playlistId);
      }
      assert cache == Prepended(old(cache), o, playlistId, idDict);
      if size == maxSize {
        EvictAfterPrepend(o, old(cache), playlistId, idDict, maxSize);
        var tailId := tail.value;
        var p := cache[tailId].prev.value;
        cache := cache[p := cache[p].(next := None)];
        tail := Some(p);
        cache := cache - {tailId};
        order := ([playlistId] + o)[..|o|];
      } else {
        LinkedPrepend(o, old(cache), playlistId, idDict);
        TracksOfPrepended(old(cache), o, playlistId, idDict);
        size := size + 1;
        order := [playlistId] + o;
      }
    }

    /** Records that `track` was added to a cached playlist; the recency
        order and all links stay as they are. */
    method UpdateSong(track: string, playlistId: string)
      requires Valid()
      requires playlistId in cache
      modifies this
      ensures Valid()
      ensures order == old(order) && size == old(size)
      ensures head == old(head) && tail == old(tail)
      ensures cache.Keys == old(cache.Keys)
      ensures cache[playlistId].tracks == old(cache[playlistId].tracks)[track := Uri(track)]
      ensures forall id :: id in old(cache) ==>
        cache[id].prev == old(cache[id].prev) && cache[id].next == old(cache[id].next)
      ensures Contents() == old(Contents())[playlistId := old(Contents())[playlistId][track := Uri(track)]]
    {
      var node := cache[playlistId];
      cache := cache[playlistId := node.(tracks := node.tracks[track := Uri(track)])];
      LinkedRetrack(order, old(cache), head, tail, playlistId, node.tracks[track := Uri(track)]);
      TracksOfStore(old(cache), playlistId, node.(tracks := node.tracks[track := Uri(track)]));
    }

    /** Removes a cached playlist, reconnecting its neighbours and moving the
        head or tail when it was at an end. */
    method DeletePlaylist(playlistId: string)
      requires Valid()
      requires playlistId in cache
      modifies this
      ensures Valid()
      ensures order == Recency.Without(old(order), playlistId)
      ensures size == old(size) - 1
      ensures cache.Keys == old(cache.Keys) - {playlistId}
      ensures Contents() == old(Contents()) - {playlistId}
    {
      ghost var o := order;
      ghost var k := Position(o, cache, head, tail, playlistId);
      var node := cache[playlistId];
      if node.prev == None {
        head := node.next;
      }
      if node.next == None {
        tail := node.prev;
      }
      cache := Unlinked(cache, playlistId);
      size := size - 1;
      order := o[..k] + o[k + 1..];
      DeleteKeeps(maxSize, old(size), old(head), old(tail), old(cache), o, k, playlistId);
      assert CacheInvariant(maxSize, size, head, tail, cache, order);
    }
  }
}
