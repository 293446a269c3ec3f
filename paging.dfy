/** Reading a whole playlist from the remote service, which hands out at
    most 100 tracks per request: `getAllIds` asks for offsets 0, 100,
    200, ... until a page comes back empty, and builds the id-to-URI map
    (spotify.js:150-164, src/utils/spotify-api.js:92-102). */
module Paging {
  import opened Wrappers
  import opened Tracks

  /** The service's page size and the step of the offset. */
  const PageSize: nat := 100

  /** The remote service as seen by `getIdsByOffset`: the track ids of the
      page at an offset, or None when the request is rejected. */
  type Pages = nat -> Option<seq<string>>

  /** Why a call to the service fails: a page request, the single add of
      `addSong`, or the add or delete request of the batch with that index
      was rejected; or there was nothing to add. */
  datatype ServiceError =
    | FetchFailed(offset: nat)
    | DuplicateSong
    | AllDuplicates
    | AddFailed
    | UploadFailed(batch: nat)
    | DeleteFailed(batch: nat)

  /** A page that ends the reading loop: empty or rejected. */
  predicate Final(page: Option<seq<string>>)
  {
    page == None || page == Some([])
  }

  /** The ids of the pages from index `k` on, up to the first empty page,
      or the offset of the first rejected request. `stop` is a page index
      at which the loop certainly ends; the result does not depend on it. */
  function Crawl(pages: Pages, k: nat, stop: nat): Result<seq<string>, nat>
    requires k <= stop && Final(pages(PageSize * stop))
    decreases stop - k
  {
    match pages(PageSize * k)
    case None => Failure(PageSize * k)
    case Some(ids) =>
      if ids == [] then Success([])
      else Prepend(ids, Crawl(pages, k + 1, stop))
  }

  function Prepend(ids: seq<string>, r: Result<seq<string>, nat>): Result<seq<string>, nat>
  {
    match r
    case Success(rest) => Success(ids + rest)
    case Failure(offset) => Failure(offset)
  }

  lemma PrependJoin(a: seq<string>, b: seq<string>, r: Result<seq<string>, nat>)
    ensures Prepend([], r) == r
    ensures Prepend(a, Prepend(b, r)) == Prepend(a + b, r)
  {
    if r.Success? {
      assert [] + r.value == r.value;
      assert a + (b + r.value) == (a + b) + r.value;
    }
  }

  /** What `getAllIds` computes: the membership map of every track read,
      or the offset whose request failed. */
  function AllIds(pages: Pages, stop: nat): Result<TrackMap, ServiceError>
    requires Final(pages(PageSize * stop))
  {
    match Crawl(pages, 0, stop)
    case Success(ids) => Success(UriMap(ids))
    case Failure(offset) => Failure(FetchFailed(offset))
  }

  /** The loop of `getAllIds`: fetch a page, record every id in it, move
      the offset on by 100, until an empty page; a rejected request ends
      it with the request's error. */
  method FetchAllIds(pages: Pages, ghost stop: nat) returns (r: Result<TrackMap, ServiceError>)
    requires Final(pages(PageSize * stop))
    ensures r == AllIds(pages, stop)
    ensures r.Success? ==> WellFormed(r.value)
  {
    var idDict: TrackMap := map[];
    var offset := 0;
    ghost var k := 0;
    ghost var seen: seq<string> := [];
    var page := pages(offset);
    if page == None {
      return Failure(FetchFailed(offset));
    }
    var idList := page.value;
    PrependJoin([], [], Crawl(pages, 0, stop));
    while idList != []
      invariant k <= stop && offset == PageSize * k
      invariant pages(offset) == Some(idList)
      invariant Crawl(pages, 0, stop) == Prepend(seen, Crawl(pages, k, stop))
      invariant idDict == UriMap(seen)
      decreases stop - k
    {
      for j := 0 to |idList|
        invariant idDict == UriMap(seen + idList[..j])
      {
        UriMapSnoc(seen + idList[..j], idList[j]);
        assert (seen + idList[..j]) + [idList[j]] == seen + idList[..j + 1];
        idDict := idDict[idList[j] := Uri(idList[j])];
      }
      assert idList[..|idList|] == idList;
      PrependJoin(seen, idList, Crawl(pages, k + 1, stop));
      seen := seen + idList;
      offset := offset + PageSize;
      k := k + 1;
      page := pages(offset);
      if page == None {
        return Failure(FetchFailed(offset));
      }
      idList := page.value;
    }
    assert seen + [] == seen;
    UriMapWellFormed(seen);
    return Success(idDict);
  }

  /** A playlist held by the service, served 100 tracks at a time. */
  function Serving(remote: seq<string>): Pages
  {
    (offset: nat) => Some(remote[Min(offset, |remote|)..Min(offset + PageSize, |remote|)])
  }

  /** Reading a served playlist from page `k` on yields every track from
      offset 100k to the end, in order: paging loses and repeats nothing. */
  lemma {:induction false} CrawlServing(remote: seq<string>, k: nat, stop: nat)
    requires k <= stop && |remote| <= PageSize * stop
    ensures Final(Serving(remote)(PageSize * stop))
    ensures Crawl(Serving(remote), k, stop) == Success(remote[Min(PageSize * k, |remote|)..])
    decreases stop - k
  {
    var pages := Serving(remote);
    var lo := Min(PageSize * k, |remote|);
    assert pages(PageSize * k) == Some(remote[lo..Min(PageSize * k + PageSize, |remote|)]);
    if PageSize * k < |remote| {
      CrawlServing(remote, k + 1, stop);
      var mid := Min(PageSize * (k + 1), |remote|);
      assert remote[lo..mid] + remote[mid..] == remote[lo..];
    }
  }

  /** Hence `getAllIds` on a served playlist returns the map of all its
      tracks. */
  lemma AllIdsServing(remote: seq<string>)
    ensures Final(Serving(remote)(PageSize * (|remote| / PageSize + 1)))
    ensures AllIds(Serving(remote), |remote| / PageSize + 1) == Success(UriMap(remote))
  {
    CrawlServing(remote, 0, |remote| / PageSize + 1);
    assert remote[0..] == remote;
  }
}
