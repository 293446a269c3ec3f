/** Splitting a list into requests of at most 100 entries, as
    `batchAddSongs` and `clearPlaylist` do in both spotify.js and
    src/utils/spotify-api.js: request i carries the entries from index
    100 i up to `min(n, 100 i + 99)` inclusive. */
module Batching {
  import opened Wrappers
  import opened Tracks
  import opened Paging

  /** The most entries the service accepts in one request. */
  const BatchSize: nat := 100

  /** `Math.ceil(n / 100)`. */
  function NumBatches(n: nat): nat
  {
    (n + BatchSize - 1) / BatchSize
  }

  /** `Math.min(n, i*100 + 99)`: the last index the source means to send in
      request i (for the last request it is `n`, one past the end). */
  function LastIndex(n: nat, i: nat): nat
  {
    Min(n, i * BatchSize + BatchSize - 1)
  }

  /** JavaScript's `s.slice(start, end)` for non-negative bounds: both are
      clamped to the length, and an end before the start gives []. */
  function JsSlice<T>(s: seq<T>, start: nat, end: nat): (r: seq<T>)
    ensures |r| <= |s|
  {
    var lo := Min(start, |s|);
    var hi := Min(end, |s|);
    if hi <= lo then [] else s[lo..hi]
  }

  /** The entries of request i: `s.slice(i*100, lastIndex + 1)`. */
  function Batch<T>(s: seq<T>, i: nat): seq<T>
  {
    JsSlice(s, i * BatchSize, LastIndex(|s|, i) + 1)
  }

  /** Every request the loop issues. */
  function Batches<T>(s: seq<T>): seq<seq<T>>
  {
    seq(NumBatches(|s|), i requires 0 <= i < NumBatches(|s|) => Batch(s, i))
  }

  function Flatten<T>(ss: seq<seq<T>>): seq<T>
  {
    if ss == [] then [] else Flatten(ss[..|ss| - 1]) + ss[|ss| - 1]
  }

  /** Request i of the loop holds the next (up to) 100 entries, never none. */
  lemma BatchIsBlock<T>(s: seq<T>, i: nat)
    requires i < NumBatches(|s|)
    ensures i * BatchSize < |s|
    ensures Batch(s, i) == s[i * BatchSize..Min(i * BatchSize + BatchSize, |s|)]
    ensures 1 <= |Batch(s, i)| <= BatchSize
  {
  }

  /** The first k requests together are the first min(100 k, n) entries. */
  lemma {:induction false} FlattenPrefix<T>(s: seq<T>, k: nat)
    requires k <= NumBatches(|s|)
    ensures Flatten(Batches(s)[..k]) == s[..Min(k * BatchSize, |s|)]
  {
    if k > 0 {
      FlattenPrefix(s, k - 1);
      BatchIsBlock(s, k - 1);
      assert Batches(s)[..k][..k - 1] == Batches(s)[..k - 1];
      var a, b := (k - 1) * BatchSize, Min(k * BatchSize, |s|);
      assert s[..a] + s[a..b] == s[..b];
    }
  }

  /** The requests are consecutive, disjoint blocks of 1 to 100 entries
      which together are exactly the list. */
  lemma BatchesCover<T>(s: seq<T>)
    ensures Flatten(Batches(s)) == s
    ensures |Batches(s)| == NumBatches(|s|)
    ensures forall i :: 0 <= i < |Batches(s)| ==> 1 <= |Batches(s)[i]| <= BatchSize
    ensures s != [] <==> Batches(s) != []
  {
    FlattenPrefix(s, NumBatches(|s|));
    assert Batches(s)[..NumBatches(|s|)] == Batches(s);
    forall i | 0 <= i < |Batches(s)| ensures 1 <= |Batches(s)[i]| <= BatchSize {
      BatchIsBlock(s, i);
    }
  }

  /** The loop shared by `batchAddSongs` and `clearPlaylist`: one request
      per batch, in order; the first rejected request ends the loop with
      its index. On success the result is the number of entries sent. */
  method SendBatches(items: seq<string>, accept: nat -> bool)
    returns (r: Result<nat, nat>, sent: seq<seq<string>>)
    ensures r.Success? <==> forall i :: 0 <= i < NumBatches(|items|) ==> accept(i)
    ensures r.Success? ==> r.value == |items| && sent == Batches(items)
    ensures r.Failure? ==>
      && r.error < NumBatches(|items|) && !accept(r.error)
      && (forall i :: 0 <= i < r.error ==> accept(i))
      && sent == Batches(items)[..r.error + 1]
  {
    var songsAdded := 0;
    sent := [];
    for i := 0 to NumBatches(|items|)
      invariant sent == Batches(items)[..i]
      invariant forall j :: 0 <= j < i ==> accept(j)
      invariant songsAdded == Min(i * BatchSize, |items|)
    {
      var lastIndex := LastIndex(|items|, i);
      var batch := JsSlice(items, i * BatchSize, lastIndex + 1);
      assert Batches(items)[..i + 1] == Batches(items)[..i] + [batch];
      sent := sent + [batch];
      if !accept(i) {
        return Failure(i), sent;
      }
      BatchIsBlock(items, i);
      songsAdded := songsAdded + |batch|;
    }
    assert Batches(items)[..NumBatches(|items|)] == Batches(items);
    return Success(songsAdded), sent;
  }

  /** The upload of `batchAddSongs` once the duplicates are gone: nothing
      left to add is an error, otherwise the URIs go out in batches. */
  method UploadNew(uris: seq<string>, accept: nat -> bool)
    returns (r: Result<nat, ServiceError>, sent: seq<seq<string>>)
    ensures uris == [] ==> r == Failure(AllDuplicates) && sent == []
    ensures uris != [] ==> Uploaded(uris, accept, r, sent)
  {
    if |uris| == 0 {
      return Failure(AllDuplicates), [];
    }
    var added;
    added, sent := SendBatches(uris, accept);
    if added.Failure? {
      return Failure(UploadFailed(added.error)), sent;
    }
    return Success(added.value), sent;
  }

  /** The delete loop of `clearPlaylist`: the values of `m` go out in
      batches of at most 100, and the first rejected batch ends it. */
  method DeleteTracks(m: TrackMap, accept: nat -> bool)
    returns (r: Result<bool, ServiceError>, sent: seq<seq<string>>)
    requires WellFormed(m)
    ensures r.Success? <==> forall i :: 0 <= i < NumBatches(|m|) ==> accept(i)
    ensures r.Success? ==> r.value && Cleared(m, sent)
    ensures r.Failure? ==>
      && r.error.DeleteFailed? && !accept(r.error.batch)
      && (forall i :: 0 <= i < r.error.batch ==> accept(i))
      && PartlyCleared(m, sent, r.error.batch)
  {
    var values := ObjectValues(m);
    var deleted;
    deleted, sent := SendBatches(values, accept);
    if deleted.Failure? {
      ClearedPrefix(values, m, deleted.error);
      return Failure(DeleteFailed(deleted.error)), sent;
    }
    BatchesCover(values);
    return Success(true), sent;
  }

  /** The count the source returns: each accepted request adds
      `lastIndex % 100`, summed over the first k requests. */
  function ReportedSum(n: nat, k: nat): nat
  {
    if k == 0 then 0 else ReportedSum(n, k - 1) + LastIndex(n, k - 1) % BatchSize
  }

  function ReportedCount(n: nat): nat
  {
    ReportedSum(n, NumBatches(n))
  }

  lemma {:induction false} ReportedFull(n: nat, k: nat)
    requires k <= n / BatchSize
    ensures ReportedSum(n, k) == 99 * k
  {
    if k > 0 {
      ReportedFull(n, k - 1);
      assert (k - 1) * BatchSize + BatchSize <= n;
      assert LastIndex(n, k - 1) == (k - 1) * BatchSize + 99;
    }
  }

  /** The reported count falls short by one for every 100 tracks. */
  lemma ReportedCountValue(n: nat)
    ensures ReportedCount(n) == n - n / BatchSize
  {
    var q, m := n / BatchSize, n % BatchSize;
    assert n == BatchSize * q + m;
    ReportedFull(n, q);
    if m == 0 {
      assert NumBatches(n) == q;
    } else {
      assert NumBatches(n) == q + 1;
      assert LastIndex(n, q) == n;
    }
  }

  /** One full request of 100 tracks is reported as 99. */
  lemma ReportedCountShortfall()
    ensures ReportedCount(100) == 99
    ensures ReportedCount(99) == 99 && ReportedCount(250) == 248
  {
    ReportedCountValue(100);
    ReportedCountValue(99);
    ReportedCountValue(250);
  }

  /** Every URI of `m` was sent once, at most 100 to a request. */
  ghost predicate Cleared(m: TrackMap, sent: seq<seq<string>>)
  {
    && |Flatten(sent)| == |m|
    && (forall v :: v in Flatten(sent) <==> v in m.Values)
    && (forall i, j :: 0 <= i < j < |Flatten(sent)| ==> Flatten(sent)[i] != Flatten(sent)[j])
    && (forall i :: 0 <= i < |sent| ==> 1 <= |sent[i]| <= BatchSize)
  }

  /** The delete requests up to and including the rejected request `k`
      went out: the first min(100 (k + 1), n) URIs of `m`, each once, at
      most 100 to a request. */
  ghost predicate PartlyCleared(m: TrackMap, sent: seq<seq<string>>, k: nat)
  {
    && |sent| == k + 1
    && |Flatten(sent)| == Min((k + 1) * BatchSize, |m|)
    && (forall v :: v in Flatten(sent) ==> v in m.Values)
    && (forall i, j :: 0 <= i < j < |Flatten(sent)| ==> Flatten(sent)[i] != Flatten(sent)[j])
    && (forall i :: 0 <= i < |sent| ==> 1 <= |sent[i]| <= BatchSize)
  }

  /** Sending the first k + 1 requests of the values of `m`. */
  lemma ClearedPrefix(values: seq<string>, m: TrackMap, k: nat)
    requires |values| == |m|
    requires forall i, j :: 0 <= i < j < |values| ==> values[i] != values[j]
    requires forall v :: v in values <==> v in m.Values
    requires k < NumBatches(|values|)
    ensures PartlyCleared(m, Batches(values)[..k + 1], k)
  {
    var sent := Batches(values)[..k + 1];
    var f := values[..Min((k + 1) * BatchSize, |values|)];
    FlattenPrefix(values, k + 1);
    assert Flatten(sent) == f;
    assert forall i :: 0 <= i < |f| ==> f[i] == values[i];
    assert forall v :: v in f ==> v in m.Values by {
      forall v | v in f ensures v in values {
        var i :| 0 <= i < |f| && f[i] == v;
        assert values[i] == v;
      }
    }
    forall i | 0 <= i < |sent|
      ensures 1 <= |sent[i]| <= BatchSize
    {
      BatchIsBlock(values, i);
    }
  }

  /** All of `uris` were sent in consecutive batches of at most 100 and
      counted, or the first rejected batch is reported. */
  ghost predicate Uploaded(uris: seq<string>, accept: nat -> bool,
                           r: Result<nat, ServiceError>, sent: seq<seq<string>>)
  {
    && (r.Success? <==> forall i :: 0 <= i < NumBatches(|uris|) ==> accept(i))
    && (r.Success? ==> r == Success(|uris|) && sent == Batches(uris))
    && (r.Failure? ==>
          && r.error.UploadFailed? && r.error.batch < NumBatches(|uris|)
          && !accept(r.error.batch)
          && (forall i :: 0 <= i < r.error.batch ==> accept(i))
          && sent == Batches(uris)[..r.error.batch + 1])
  }
}
