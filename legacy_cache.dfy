/** The earlier cache of playlist-cache.js: the same LRU structure, but the
    nodes are stored as properties of the cache object itself, next to its
    own fields. Its linked structure and LRU behaviour are those of
    LruCache.PlaylistCache, which it is built on; what it adds is the
    membership test `playlistId in this`. */
module LegacyLru {
  import opened Wrappers
  import opened Tracks
  import opened LruCache
  import Recency

  /** The cache object's own properties (playlist-cache.js:14-17, :24, :54). */
  const OwnFields: set<string> := {"size", "maxSize", "head", "tail", "get", "add"}

  /** Ids that `playlistId in this` finds although no playlist was added
      under them: the object's own fields and the inherited names. */
  predicate Clashes(playlistId: string)
  {
    playlistId in OwnFields || playlistId in InheritedNames
  }

  /** The result of `get`: a miss (`null`), a playlist's tracks, or an id
      that names one of the object's other properties. */
  datatype Lookup = Miss | Hit(tracks: TrackMap) | FieldClash

  lemma ClashExamples()
    ensures Clashes("size") && Clashes("head") && Clashes("toString")
    ensures !Clashes("37i9dQZF1DXcBWIGoYBM5M")
  {
  }

  class LegacyCache {
    const store: PlaylistCache

    ghost predicate Valid()
      reads this, store
    {
      && store.Valid()
      && forall id :: id in store.cache ==> !Clashes(id)
    }

    constructor (maxSize: nat)
      requires 1 <= maxSize
      ensures Valid() && fresh(store)
      ensures store.maxSize == maxSize && store.order == []
    {
      store := new PlaylistCache(maxSize);
    }

    /** A miss returns `Miss` and changes nothing; a hit on an added
        playlist returns its tracks and makes it the most recent entry; an
        id naming another property of the object is reported as a clash. */
    method Get(playlistId: string) returns (r: Lookup)
      requires Valid()
      modifies store
      ensures Valid()
      ensures Clashes(playlistId) ==> r == FieldClash && unchanged(store)
      ensures !Clashes(playlistId) && playlistId !in old(store.cache) ==>
        r == Miss && unchanged(store)
      ensures !Clashes(playlistId) && playlistId in old(store.cache) ==>
        && r == Hit(old(store.cache[playlistId].tracks))
        && store.order == Recency.Promote(old(store.order), playlistId)
        && store.size == old(store.size)
        && store.Contents() == old(store.Contents())
    {
      if Clashes(playlistId) {
        return FieldClash;
      }
      var t := store.Get(playlistId);
      if t == None {
        r := Miss;
      } else {
        r := Hit(t.value);
      }
      assert store.cache.Keys == store.Contents().Keys;
    }

    /** Adds a playlist that is not cached as the most recent entry,
        evicting the least recently used one when full. Unlike the source,
        an empty cache is handled: the entry becomes both head and tail. */
    method Add(idDict: TrackMap, playlistId: string)
      requires Valid()
      requires playlistId !in store.cache && !Clashes(playlistId)
      modifies store
      ensures Valid()
      ensures store.order == Recency.Insert(old(store.order), playlistId, store.maxSize)
      ensures store.head == Some(playlistId) && playlistId in store.cache && store.cache[playlistId].tracks == idDict
      ensures old(store.size) < store.maxSize ==>
        store.size == old(store.size) + 1
        && store.Contents() == old(store.Contents())[playlistId := idDict]
      ensures old(store.size) == store.maxSize ==>
        && store.size == old(store.size)
        && store.Contents() == (old(store.Contents()) - {old(store.order)[|old(store.order)| - 1]})[playlistId := idDict]
    {
      store.Add(idDict, playlistId);
      assert store.cache.Keys == store.Contents().Keys;
      assert old(store.cache).Keys == old(store.Contents()).Keys;
    }
  }
}
