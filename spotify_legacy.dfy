/** The service logic of spotify.js, which reads the whole playlist again
    for every duplicate check. The service is an input: `pages` answers the
    page requests and `accept` says which add or delete requests succeed;
    the requests issued are returned as `sent`. */
module SpotifyLegacy {
  import opened Wrappers
  import opened Tracks
  import opened Paging
  import opened Batching
  import Dedup

  /** `getAllIds`: every track of the playlist, page by page. */
  method GetAllIds(pages: Pages, ghost stop: nat) returns (r: Result<TrackMap, ServiceError>)
    requires Final(pages(PageSize * stop))
    ensures r == AllIds(pages, stop)
    ensures r.Success? ==> WellFormed(r.value)
  {
    r := FetchAllIds(pages, stop);
  }

  /** `inPlaylist`: `track in trackList` on the map just read. */
  method InPlaylist(track: string, pages: Pages, ghost stop: nat) returns (r: Result<bool, ServiceError>)
    requires Final(pages(PageSize * stop))
    ensures AllIds(pages, stop).Failure? ==> r == Failure(AllIds(pages, stop).error)
    ensures AllIds(pages, stop).Success? ==>
      r == Success(HasProperty(AllIds(pages, stop).value, track))
  {
    var trackList := GetAllIds(pages, stop);
    if trackList.Failure? {
      return Failure(trackList.error);
    }
    return Success(HasProperty(trackList.value, track));
  }

  /** On a playlist the service holds, `inPlaylist` finds exactly its
      tracks and the names every object inherits. */
  lemma InPlaylistServing(remote: seq<string>, track: string)
    ensures var stop := |remote| / PageSize + 1;
      && Final(Serving(remote)(PageSize * stop))
      && AllIds(Serving(remote), stop).Success?
      && (HasProperty(AllIds(Serving(remote), stop).value, track)
          <==> track in remote || track in InheritedNames)
  {
    AllIdsServing(remote);
  }

  /** `removeDuplicates`: the URIs of the requested ids that the playlist
      does not have, each once, in request order. */
  method RemoveDuplicates(tracks: seq<string>, pages: Pages, ghost stop: nat)
    returns (r: Result<seq<string>, ServiceError>)
    requires Final(pages(PageSize * stop))
    ensures AllIds(pages, stop).Failure? ==> r == Failure(AllIds(pages, stop).error)
    ensures AllIds(pages, stop).Success? ==>
      r == Success(Dedup.KeptUris(tracks, AllIds(pages, stop).value))
  {
    var fetched := GetAllIds(pages, stop);
    if fetched.Failure? {
      return Failure(fetched.error);
    }
    var playlist := fetched.value;
    ghost var m0 := playlist;
    ghost var kept: seq<string> := [];
    var trackList: seq<string> := [];
    for i := 0 to |tracks|
      invariant kept + Dedup.NewIds(tracks[i..], playlist) == Dedup.NewIds(tracks, m0)
      invariant trackList == Uris(kept)
    {
      var track := tracks[i];
      assert tracks[i..] == [track] + tracks[i + 1..];
      if !HasProperty(playlist, track) {
        UrisSnoc(kept, track);
        trackList := trackList + [Uri(track)];
        kept := kept + [track];
        playlist := playlist[track := Uri(track)];
      }
    }
    assert kept + [] == kept;
    return Success(trackList);
  }

  /** `addSong`: a track already in the playlist is refused before any
      request; otherwise one request adds it. */
  method AddSong(track: string, pages: Pages, ghost stop: nat, accept: bool)
    returns (r: Result<bool, ServiceError>, sent: seq<seq<string>>)
    requires Final(pages(PageSize * stop))
    ensures AllIds(pages, stop).Failure? ==> r == Failure(AllIds(pages, stop).error) && sent == []
    ensures AllIds(pages, stop).Success? && HasProperty(AllIds(pages, stop).value, track) ==>
      r == Failure(DuplicateSong) && sent == []
    ensures AllIds(pages, stop).Success? && !HasProperty(AllIds(pages, stop).value, track) ==>
      sent == [[Uri(track)]] && r == (if accept then Success(true) else Failure(AddFailed))
  {
    sent := [];
    var present := InPlaylist(track, pages, stop);
    if present.Failure? {
      return Failure(present.error), sent;
    }
    if present.value {
      return Failure(DuplicateSong), sent;
    }
    sent := [[Uri(track)]];
    if !accept {
      return Failure(AddFailed), sent;
    }
    return Success(true), sent;
  }

  /** `batchAddSongs`: the new tracks go out in requests of at most 100; the
      result is how many were sent (see the README on the count the source
      reports instead). */
  method BatchAddSongs(tracks: seq<string>, pages: Pages, ghost stop: nat, accept: nat -> bool)
    returns (r: Result<nat, ServiceError>, sent: seq<seq<string>>)
    requires Final(pages(PageSize * stop))
    ensures AllIds(pages, stop).Failure? ==> r == Failure(AllIds(pages, stop).error) && sent == []
    ensures AllIds(pages, stop).Success? ==>
      var uris := Dedup.KeptUris(tracks, AllIds(pages, stop).value);
      && (uris == [] ==> r == Failure(AllDuplicates) && sent == [])
      && (uris != [] ==> Uploaded(uris, accept, r, sent))
  {
    sent := [];
    var unique := RemoveDuplicates(tracks, pages, stop);
    if unique.Failure? {
      return Failure(unique.error), sent;
    }
    r, sent := UploadNew(unique.value, accept);
  }

  /** `clearPlaylist`: every URI of the playlist goes out in delete
      requests of at most 100. */
  method ClearPlaylist(pages: Pages, ghost stop: nat, accept: nat -> bool)
    returns (r: Result<bool, ServiceError>, sent: seq<seq<string>>)
    requires Final(pages(PageSize * stop))
    ensures AllIds(pages, stop).Failure? ==> r == Failure(AllIds(pages, stop).error) && sent == []
    ensures AllIds(pages, stop).Success? ==>
      (r.Success? <==> forall i :: 0 <= i < NumBatches(|AllIds(pages, stop).value|) ==> accept(i))
    ensures AllIds(pages, stop).Success? && r.Success? ==>
      r.value && Cleared(AllIds(pages, stop).value, sent)
    ensures r.Failure? && AllIds(pages, stop).Success? ==>
      && r.error.DeleteFailed? && !accept(r.error.batch)
      && (forall i :: 0 <= i < r.error.batch ==> accept(i))
      && PartlyCleared(AllIds(pages, stop).value, sent, r.error.batch)
  {
    sent := [];
    var trackList := GetAllIds(pages, stop);
    if trackList.Failure? {
      return Failure(trackList.error), sent;
    }
    r, sent := DeleteTracks(trackList.value, accept);
  }
}
