/** The service logic of src/utils/spotify-api.js: as in spotify.js, but a
    playlist is read from the service only on a miss of the module's LRU
    cache, the new ids of every batch are recorded in the cached map, and
    clearing a playlist drops it from the cache. As in spotify.js the
    service is an input (`pages`, `accept`) and the requests issued are
    returned as `sent`. */
module SpotifyApi {
  import opened Wrappers
  import opened Tracks
  import opened Paging
  import opened Batching
  import opened LruCache
  import Dedup
  import Recency

  /** The capacity of the module-level cache (src/utils/spotify-api.js:13). */
  const CacheCapacity: nat := 5

  /** The recency order after `getAllIds` looked a playlist up: a hit
      promotes it, a miss that was fetched inserts it. */
  ghost function Touched(order: seq<string>, playlistId: string, hit: bool): seq<string>
    requires |order| <= CacheCapacity
  {
    if hit then Recency.Promote(order, playlistId)
    else Recency.Insert(order, playlistId, CacheCapacity)
  }

  /** The cached playlists after `getAllIds` found `m` for `playlistId`:
      unchanged on a hit; on a miss `m` is added, and when the cache was
      full its least recent playlist is evicted. */
  ghost function Looked(contents: map<string, TrackMap>, order: seq<string>, playlistId: string,
                        m: TrackMap): map<string, TrackMap>
  {
    if playlistId in contents then contents
    else if |order| == CacheCapacity then (contents - {order[|order| - 1]})[playlistId := m]
    else contents[playlistId := m]
  }

  lemma MapUpdateTwice(c: map<string, TrackMap>, k: string, a: TrackMap, b: TrackMap)
    ensures c[k := a][k := b] == c[k := b]
  {
  }

  class Service {
    /** The module-level `cache` object. */
    const cache: PlaylistCache

    ghost predicate Valid()
      reads this, cache
    {
      && cache.Valid()
      && cache.maxSize == CacheCapacity
      && forall id :: id in cache.Contents() ==> WellFormed(cache.Contents()[id])
    }

    /** The cache after `getAllIds` found `m` for `playlistId`, starting
        from the order `order0` and the playlists `contents0`. */
    ghost predicate LookedUp(playlistId: string, m: TrackMap, order0: seq<string>,
                             contents0: map<string, TrackMap>)
      reads this, cache
    {
      && |order0| <= CacheCapacity
      && cache.order == Touched(order0, playlistId, playlistId in contents0)
      && cache.Contents() == Looked(contents0, order0, playlistId, m)
    }

    /** The cache after `removeDuplicates` looked `playlistId` up, found
        `m`, and recorded the new ids of `tracks` in it. */
    ghost predicate Deduped(playlistId: string, m: TrackMap, tracks: seq<string>, order0: seq<string>,
                            contents0: map<string, TrackMap>)
      reads this, cache
    {
      && Recorded(playlistId, m + UriMap(Dedup.NewIds(tracks, m)))
      && |order0| <= CacheCapacity
      && cache.order == Touched(order0, playlistId, playlistId in contents0)
      && cache.Contents() == Looked(contents0, order0, playlistId, m)[playlistId := m + UriMap(Dedup.NewIds(tracks, m))]
    }

    /** The cache after `clearPlaylist` looked `playlistId` up, found `m`,
        and then deleted the playlist. */
    ghost predicate Dropped(playlistId: string, m: TrackMap, order0: seq<string>,
                            contents0: map<string, TrackMap>)
      reads this, cache
    {
      && |order0| <= CacheCapacity
      && cache.order == Recency.Without(Touched(order0, playlistId, playlistId in contents0), playlistId)
      && cache.Contents() == Looked(contents0, order0, playlistId, m) - {playlistId}
      && |cache.Contents()| == |Looked(contents0, order0, playlistId, m)| - 1
    }

    /** The membership map `getAllIds` would return now: the cached one on
        a hit, otherwise whatever reading the service gives. */
    ghost function Known(playlistId: string, pages: Pages, stop: nat): Result<TrackMap, ServiceError>
      reads this, cache
      requires Final(pages(PageSize * stop))
    {
      if playlistId in cache.Contents() then Success(cache.Contents()[playlistId])
      else AllIds(pages, stop)
    }

    constructor ()
      ensures Valid() && fresh(cache)
      ensures cache.order == [] && cache.Contents() == map[]
    {
      cache := new PlaylistCache(CacheCapacity);
    }

    /** `getAllIds`: a hit returns the cached map without a request; a miss
        reads the playlist and caches it. The map returned is the one the
        cache holds. */
    method GetAllIds(playlistId: string, pages: Pages, ghost stop: nat)
      returns (r: Result<TrackMap, ServiceError>)
      requires Valid() && Final(pages(PageSize * stop))
      modifies cache
      ensures Valid()
      ensures r == old(Known(playlistId, pages, stop))
      ensures r.Success? ==>
        && Recorded(playlistId, r.value)
        && LookedUp(playlistId, r.value, old(cache.order), old(cache.Contents()))
      ensures r.Failure? ==> unchanged(cache)
    {
      assert cache.cache.Keys == cache.Contents().Keys;
      var idDict := cache.Get(playlistId);
      if idDict != None {
        return Success(idDict.value);
      }
      r := FetchAllIds(pages, stop);
      if r.Failure? {
        return;
      }
      cache.Add(r.value, playlistId);
    }

    /** `inPlaylist`: whether the playlist's map has the track. */
    method InPlaylist(track: string, playlistId: string, pages: Pages, ghost stop: nat)
      returns (r: Result<bool, ServiceError>)
      requires Valid() && Final(pages(PageSize * stop))
      modifies cache
      ensures Valid()
      ensures old(Known(playlistId, pages, stop)).Failure? ==>
        r == Failure(old(Known(playlistId, pages, stop)).error)
      ensures old(Known(playlistId, pages, stop)).Failure? ==> unchanged(cache)
      ensures old(Known(playlistId, pages, stop)).Success? ==>
        r == Success(HasProperty(old(Known(playlistId, pages, stop)).value, track))
      ensures old(Known(playlistId, pages, stop)).Success? ==>
        LookedUp(playlistId, old(Known(playlistId, pages, stop)).value, old(cache.order), old(cache.Contents()))
    {
      var trackList := GetAllIds(playlistId, pages, stop);
      if trackList.Failure? {
        return Failure(trackList.error);
      }
      return Success(HasProperty(trackList.value, track));
    }

    /** `removeDuplicates`: the URIs of the requested ids the playlist does
        not have, each once, in request order. Each kept id is written both
        through `updateSong` and straight into the map `getAllIds` returned,
        which are the same map, so the cache ends up holding it. */
    method RemoveDuplicates(tracks: seq<string>, playlistId: string, pages: Pages, ghost stop: nat)
      returns (r: Result<seq<string>, ServiceError>)
      requires Valid() && Final(pages(PageSize * stop))
      modifies cache
      ensures Valid()
      ensures old(Known(playlistId, pages, stop)).Failure? ==>
        r == Failure(old(Known(playlistId, pages, stop)).error) && unchanged(cache)
      ensures old(Known(playlistId, pages, stop)).Success? ==>
        var m := old(Known(playlistId, pages, stop)).value;
        && r == Success(Dedup.KeptUris(tracks, m))
        && Deduped(playlistId, m, tracks, old(cache.order), old(cache.Contents()))
    {
      var fetched := GetAllIds(playlistId, pages, stop);
      if fetched.Failure? {
        return Failure(fetched.error);
      }
      r := RecordNew(tracks, playlistId, fetched.value);
    }

    /** The loop of `removeDuplicates` over the requested ids, on the
        cached playlist whose map is `m0`. */
    method RecordNew(tracks: seq<string>, playlistId: string, m0: TrackMap)
      returns (r: Result<seq<string>, ServiceError>)
      requires Valid() && Recorded(playlistId, m0)
      modifies cache
      ensures Valid()
      ensures r == Success(Dedup.KeptUris(tracks, m0))
      ensures Recorded(playlistId, m0 + UriMap(Dedup.NewIds(tracks, m0)))
      ensures cache.order == old(cache.order)
      ensures cache.Contents() == old(cache.Contents())[playlistId := m0 + UriMap(Dedup.NewIds(tracks, m0))]
    {
      var playlist := m0;
      ghost var kept: seq<string> := [];
      var trackList: seq<string> := [];
      assert m0 + UriMap([]) == m0;
      for i := 0 to |tracks|
        invariant Valid() && cache.order == old(cache.order)
        invariant Recorded(playlistId, playlist)
        invariant cache.Contents() == old(cache.Contents())[playlistId := playlist]
        invariant playlist == m0 + UriMap(kept)
        invariant kept + Dedup.NewIds(tracks[i..], playlist) == Dedup.NewIds(tracks, m0)
        invariant trackList == Uris(kept)
      {
        var track := tracks[i];
        Dedup.NewIdsStep(tracks, i, m0, kept, playlist);
        if !HasProperty(playlist, track) {
          ghost var before := cache.Contents();
          cache.UpdateSong(track, playlistId);
          assert cache.Contents() == before[playlistId := playlist[track := Uri(track)]];
          MapUpdateTwice(old(cache.Contents()), playlistId, playlist, playlist[track := Uri(track)]);
          UpdatePreservesWellFormed(playlist, track);
          UrisSnoc(kept, track);
          Dedup.WriteKept(m0, kept, track);
          trackList := trackList + [Uri(track)];
          kept := kept + [track];
          playlist := playlist[track := Uri(track)];
        }
      }
      assert kept + [] == kept;
      return Success(trackList);
    }

    /** The playlist is cached with membership map `m`. */
    ghost predicate Recorded(playlistId: string, m: TrackMap)
      reads this, cache
    {
      playlistId in cache.cache && cache.cache[playlistId].tracks == m
    }

    /** `addSong`: refuses a track the playlist already has, before any
        request. */
    method AddSong(track: string, playlistId: string, pages: Pages, ghost stop: nat, accept: bool)
      returns (r: Result<bool, ServiceError>, sent: seq<seq<string>>)
      requires Valid() && Final(pages(PageSize * stop))
      modifies cache
      ensures Valid()
      ensures old(Known(playlistId, pages, stop)).Failure? ==>
        r == Failure(old(Known(playlistId, pages, stop)).error) && sent == []
      ensures old(Known(playlistId, pages, stop)).Success? ==>
        if HasProperty(old(Known(playlistId, pages, stop)).value, track)
        then r == Failure(DuplicateSong) && sent == []
        else sent == [[Uri(track)]] && r == (if accept then Success(true) else Failure(AddFailed))
      ensures old(Known(playlistId, pages, stop)).Failure? ==> unchanged(cache)
      ensures old(Known(playlistId, pages, stop)).Success? ==>
        LookedUp(playlistId, old(Known(playlistId, pages, stop)).value, old(cache.order), old(cache.Contents()))
    {
      sent := [];
      var present := InPlaylist(track, playlistId, pages, stop);
      if present.Failure? {
        return Failure(present.error), sent;
      }
      if present.value {
        return Failure(DuplicateSong), sent;
      }
      sent := [[Uri(track)]];
      if !accept {
        return Failure(AddFailed), sent;
      }
      return Success(true), sent;
    }

    /** `batchAddSongs`: the new tracks are recorded in the cache first and
        then sent in requests of at most 100, so a rejected request leaves
        them cached as present. The result counts the tracks sent. */
    method BatchAddSongs(tracks: seq<string>, playlistId: string, pages: Pages, ghost stop: nat,
                         accept: nat -> bool)
      returns (r: Result<nat, ServiceError>, sent: seq<seq<string>>)
      requires Valid() && Final(pages(PageSize * stop))
      modifies cache
      ensures Valid()
      ensures old(Known(playlistId, pages, stop)).Failure? ==>
        r == Failure(old(Known(playlistId, pages, stop)).error) && sent == [] && unchanged(cache)
      ensures old(Known(playlistId, pages, stop)).Success? ==>
        var m := old(Known(playlistId, pages, stop)).value;
        var uris := Dedup.KeptUris(tracks, m);
        && Deduped(playlistId, m, tracks, old(cache.order), old(cache.Contents()))
        && (uris == [] ==> r == Failure(AllDuplicates) && sent == [])
        && (uris != [] ==> Uploaded(uris, accept, r, sent))
    {
      sent := [];
      var unique := RemoveDuplicates(tracks, playlistId, pages, stop);
      if unique.Failure? {
        return Failure(unique.error), sent;
      }
      r, sent := UploadNew(unique.value, accept);
    }

    /** `clearPlaylist`: every URI of the playlist goes out in delete
        requests of at most 100; once all succeed the playlist leaves the
        cache. A rejected request leaves the cache holding it. */
    method ClearPlaylist(playlistId: string, pages: Pages, ghost stop: nat, accept: nat -> bool)
      returns (r: Result<bool, ServiceError>, sent: seq<seq<string>>)
      requires Valid() && Final(pages(PageSize * stop))
      modifies cache
      ensures Valid()
      ensures old(Known(playlistId, pages, stop)).Failure? ==>
        r == Failure(old(Known(playlistId, pages, stop)).error) && sent == [] && unchanged(cache)
      ensures old(Known(playlistId, pages, stop)).Success? ==>
        var m := old(Known(playlistId, pages, stop)).value;
        && (r.Success? <==> forall i :: 0 <= i < NumBatches(|m|) ==> accept(i))
        && (r.Success? ==>
              && r.value && Cleared(m, sent)
              && Dropped(playlistId, m, old(cache.order), old(cache.Contents())))
        && (r.Failure? ==>
              && r.error.DeleteFailed? && !accept(r.error.batch)
              && (forall i :: 0 <= i < r.error.batch ==> accept(i))
              && PartlyCleared(m, sent, r.error.batch)
              && LookedUp(playlistId, m, old(cache.order), old(cache.Contents())))
    {
      sent := [];
      var trackList := GetAllIds(playlistId, pages, stop);
      if trackList.Failure? {
        return Failure(trackList.error), sent;
      }
      r, sent := DeleteTracks(trackList.value, accept);
      if r.Success? {
        cache.DeletePlaylist(playlistId);
      }
    }
  }
}
