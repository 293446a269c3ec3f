/** The two cache implementations exactly as they are written, over an
    explicit heap of node objects, so that their defects can be shown on
    concrete inputs. The rest of the model uses the corrected cache in
    module LruCache; the lemmas here back the README's findings. */
module CacheAsWritten {
  import opened Wrappers
  import opened Tracks

  /** A JavaScript object reference: `null` or the address of a node. */
  datatype Ref = Null | Ptr(addr: nat)

  /** A node object `{id, tracks, prev, next}`. */
  datatype Obj = Obj(id: string, tracks: TrackMap, prev: Ref, next: Ref)

  /** The TypeErrors the code can raise: reading or writing a property of
      `null`/`undefined`, and calling a property that is not a function. */
  datatype JsError = NullDereference | NotAFunction

  /** The cache's fields (`size`, `head`, `tail`, `maxSize`, and the index
      from playlist id to node) and every node object allocated so far. */
  datatype Heap = Heap(objs: seq<Obj>, index: map<string, nat>, size: int,
                       head: Ref, tail: Ref, maxSize: int)

  /** A finished call: its return value, or the error it threw, with the
      heap as the call left it. */
  datatype Outcome<T> = Normal(value: T, heap: Heap) | Threw(error: JsError, heap: Heap)

  /** A freshly constructed cache: size 0 and both ends null. */
  function Empty(maxSize: int): Heap
  {
    Heap([], map[], 0, Null, Null, maxSize)
  }

  /** Dereferencing: `null` (or an address that was never allocated) has
      no object. */
  function Deref(h: Heap, r: Ref): (o: Option<Obj>)
    ensures o.Some? <==> r.Ptr? && r.addr < |h.objs|
    ensures o.Some? ==> o.value == h.objs[r.addr]
  {
    if r.Ptr? && r.addr < |h.objs| then Some(h.objs[r.addr]) else None
  }

  function SetObj(h: Heap, a: nat, o: Obj): Heap
    requires a < |h.objs|
  {
    h.(objs := h.objs[a := o])
  }

  /** Allocates a node and indexes it under its id. */
  function Store(h: Heap, o: Obj): Heap
  {
    h.(objs := h.objs + [o], index := h.index[o.id := |h.objs|])
  }

  /** The capacity check shared by both versions of `add`, run once the new
      node is the head: a full cache unlinks its tail and deletes the
      tail's id from the index, otherwise the size grows. */
  function EvictOrGrow(h: Heap): Outcome<()>
  {
    if h.size == h.maxSize then
      match Deref(h, h.tail)
      case None => Threw(NullDereference, h)
      case Some(t) =>
        match Deref(h, t.prev)
        case None => Threw(NullDereference, h)
        case Some(p) =>
          var h1 := SetObj(h, t.prev.addr, p.(next := Null));
          Normal((), h1.(tail := t.prev, index := h1.index - {t.id}))
    else
      Normal((), h.(size := h.size + 1))
  }

  /** `add` of src/utils/playlist-cache.js: the head is only relinked and
      moved when the cache was not empty. */
  function SrcAdd(h: Heap, idDict: TrackMap, playlistId: string): Outcome<()>
  {
    var node := Ptr(|h.objs|);
    var h1 := Store(h, Obj(playlistId, idDict, Null, h.head));
    if h1.size != 0 then
      match Deref(h1, h1.head)
      case None => Threw(NullDereference, h1)
      case Some(o) =>
        EvictOrGrow(SetObj(h1, h1.head.addr, o.(prev := node)).(head := node))
    else
      EvictOrGrow(h1)
  }

  /** `get` of src/utils/playlist-cache.js. A hit on a node with a
      predecessor rewrites that node's own links, drops it from the index
      and then calls `add` on the index object, which has no such method. */
  function SrcGet(h: Heap, playlistId: string): Outcome<Option<TrackMap>>
  {
    if playlistId !in h.index then Normal(None, h)
    else
      match Deref(h, Ptr(h.index[playlistId]))
      case None => Threw(NullDereference, h)
      case Some(n) =>
        if n.prev == Null then Normal(Some(n.tracks), h)
        else
          var a := h.index[playlistId];
          var h1 := SetObj(h, a, n.(prev := n.next));
          var n1 := h1.objs[a];
          var h2 := if n1.next != Null then SetObj(h1, a, n1.(next := n1.prev)) else h1;
          Threw(NotAFunction, h2.(size := h2.size - 1, index := h2.index - {playlistId}))
  }

  /** `deletePlaylist` of src/utils/playlist-cache.js: the neighbours are
      reconnected, but `head` and `tail` are never moved. */
  function SrcDelete(h: Heap, playlistId: string): Outcome<()>
  {
    if playlistId !in h.index then Threw(NullDereference, h)
    else
      var a := h.index[playlistId];
      match Deref(h, Ptr(a))
      case None => Threw(NullDereference, h)
      case Some(n) =>
        var r1 :=
          if n.prev == Null then Normal((), h)
          else match Deref(h, n.prev)
            case None => Threw(NullDereference, h)
            case Some(p) => Normal((), SetObj(h, n.prev.addr, p.(next := n.next)));
        match r1
        case Threw(e, h1) => Threw(e, h1)
        case Normal(_, h1) =>
          var n1 := h1.objs[a];
          var r2 :=
            if n1.next == Null then Normal((), h1)
            else match Deref(h1, n1.next)
              case None => Threw(NullDereference, h1)
              case Some(q) => Normal((), SetObj(h1, n1.next.addr, q.(prev := n1.prev)));
          match r2
          case Threw(e, h2) => Threw(e, h2)
          case Normal(_, h2) =>
            Normal((), h2.(index := h2.index - {playlistId}, size := h2.size - 1))
  }

  /** `add` of the legacy playlist-cache.js: the old head is relinked
      without checking that there is one. */
  function LegacyAdd(h: Heap, idDict: TrackMap, playlistId: string): Outcome<()>
  {
    var node := Ptr(|h.objs|);
    var h1 := Store(h, Obj(playlistId, idDict, Null, h.head));
    match Deref(h1, h1.head)
    case None => Threw(NullDereference, h1)
    case Some(o) =>
      EvictOrGrow(SetObj(h1, h1.head.addr, o.(prev := node)).(head := node))
  }

  /** `get` of the legacy playlist-cache.js: a hit with a predecessor
      rewrites the node's own links, deletes it and adds its tracks again;
      the neighbours and `tail` keep pointing at the deleted node. */
  function LegacyGet(h: Heap, playlistId: string): Outcome<Option<TrackMap>>
  {
    if playlistId !in h.index then Normal(None, h)
    else
      match Deref(h, Ptr(h.index[playlistId]))
      case None => Threw(NullDereference, h)
      case Some(n) =>
        if n.prev == Null then Normal(Some(n.tracks), h)
        else
          var a := h.index[playlistId];
          var h1 := SetObj(h, a, n.(prev := n.next));
          var n1 := h1.objs[a];
          var h2 := if n1.next != Null then SetObj(h1, a, n1.(next := n1.prev)) else h1;
          var idDict := h2.objs[a].tracks;
          match LegacyAdd(h2.(size := h2.size - 1, index := h2.index - {playlistId}), idDict, playlistId)
          case Threw(e, h3) => Threw(e, h3)
          case Normal(_, h3) =>
            if playlistId !in h3.index then Threw(NullDereference, h3)
            else match Deref(h3, Ptr(h3.index[playlistId]))
              case None => Threw(NullDereference, h3)
              case Some(m) => Normal(Some(m.tracks), h3)
  }

  /** A well-linked cache holding B (most recent, node 0) and A (node 1). */
  function TwoEntries(maxSize: int): Heap
  {
    Heap([Obj("B", map[], Null, Ptr(1)), Obj("A", map[], Ptr(0), Null)],
         map["B" := 0, "A" := 1], 2, Ptr(0), Ptr(1), maxSize)
  }

  /** The first `add` leaves both ends null although the size is 1, so the
      second `add` dereferences the null head. */
  lemma SecondAddThrows()
    ensures SrcAdd(Empty(5), map[], "A").Normal?
    ensures var h1 := SrcAdd(Empty(5), map[], "A").heap;
      && h1.size == 1 && h1.head == Null && h1.tail == Null
      && SrcAdd(h1, map[], "B") == Threw(NullDereference, SrcAdd(h1, map[], "B").heap)
  {
    var h1 := SrcAdd(Empty(5), map[], "A").heap;
    assert h1 == Heap([Obj("A", map[], Null, Null)], map["A" := 0], 1, Null, Null, 5);
  }

  /** A hit on an entry that is not the head throws, and by then the entry
      has already left the index while its predecessor still links to it. */
  lemma NonHeadGetThrows()
    ensures var r := SrcGet(TwoEntries(5), "A");
      && r.Threw? && r.error == NotAFunction
      && "A" !in r.heap.index && r.heap.size == 1
      && r.heap.objs[0].next == Ptr(1)
  {
    var a := SrcGet(TwoEntries(5), "A");
    assert a.heap.objs == [Obj("B", map[], Null, Ptr(1)), Obj("A", map[], Null, Null)];
  }

  /** Deleting the head leaves `head` pointing at the deleted node. */
  lemma DeleteHeadDangles()
    ensures var r := SrcDelete(TwoEntries(5), "B");
      && r.Normal?
      && r.heap.head == Ptr(0) && r.heap.objs[0].id == "B"
      && "B" !in r.heap.index && r.heap.size == 1
  {
  }

  /** The legacy `add` into an empty cache dereferences the null head. */
  lemma LegacyFirstAddThrows()
    ensures LegacyAdd(Empty(5), map[], "A").Threw?
    ensures LegacyAdd(Empty(5), map[], "A").error == NullDereference
  {
  }

  /** A legacy hit on the tail of a full two-entry cache re-adds it as a new
      node but leaves `tail` and B's `next` at the deleted node, whose `prev`
      it has set to null; the next `add` then dereferences that null. */
  lemma LegacyGetStrandsTail()
    ensures var r := LegacyGet(TwoEntries(2), "A");
      && r.Normal? && r.value == Some(map[])
      && r.heap.size == 2
      && r.heap.index == map["B" := 0, "A" := 2]
      && r.heap.tail == Ptr(1) && r.heap.objs[0].next == Ptr(1)
      && LegacyAdd(r.heap, map[], "C").Threw?
  {
    var h2 := Heap([Obj("B", map[], Null, Ptr(1)), Obj("A", map[], Null, Null)],
                   map["B" := 0], 1, Ptr(0), Ptr(1), 2);
    var h3 := Heap([Obj("B", map[], Ptr(2), Ptr(1)), Obj("A", map[], Null, Null),
                    Obj("A", map[], Null, Ptr(0))],
                   map["B" := 0, "A" := 2], 2, Ptr(2), Ptr(1), 2);
    assert LegacyAdd(h2, map[], "A") == Normal((), h3);
  }
}
