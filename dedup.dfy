/** The duplicate filter of `removeDuplicates` (spotify.js:218-230,
    src/utils/spotify-api.js:162-175): walk the requested ids in order and
    keep each one that `id in playlist` does not find, writing it into the
    playlist map so that a later repeat is found. */
module Dedup {
  import opened Tracks
  import Recency

  /** The ids the loop keeps, in the loop's own terms. */
  function NewIds(ts: seq<string>, m: TrackMap): seq<string>
  {
    if ts == [] then []
    else if HasProperty(m, ts[0]) then NewIds(ts[1..], m)
    else [ts[0]] + NewIds(ts[1..], m[ts[0] := Uri(ts[0])])
  }

  /** An independent reference: an id is kept at its first occurrence,
      when the playlist does not already have it. */
  function FirstNew(ts: seq<string>, m: TrackMap): seq<string>
  {
    if ts == [] then []
    else
      var last, init := ts[|ts| - 1], ts[..|ts| - 1];
      FirstNew(init, m) + (if HasProperty(m, last) || last in init then [] else [last])
  }

  /** After walking the prefix `p` from map `m`, the written map `w` finds
      exactly what `m` finds and the ids of `p`. */
  ghost predicate Walked(p: seq<string>, m: TrackMap, w: TrackMap)
  {
    forall x :: HasProperty(w, x) <==> HasProperty(m, x) || x in p
  }

  lemma WalkOne(p: seq<string>, m: TrackMap, w: TrackMap, a: string)
    requires Walked(p, m, w)
    ensures HasProperty(w, a) <==> HasProperty(m, a) || a in p
    ensures Walked(p + [a], m, if HasProperty(w, a) then w else w[a := Uri(a)])
  {
    var w' := if HasProperty(w, a) then w else w[a := Uri(a)];
    forall x ensures HasProperty(w', x) <==> HasProperty(m, x) || x in p + [a] {
      assert x in p + [a] <==> x in p || x == a;
    }
  }

  /** The walk's step: the head of `s` is kept by both definitions or by
      neither. */
  lemma WalkStep(p: seq<string>, s: seq<string>, m: TrackMap, w: TrackMap, w': TrackMap)
    requires s != [] && (HasProperty(w, s[0]) <==> HasProperty(m, s[0]) || s[0] in p)
    requires w' == if HasProperty(w, s[0]) then w else w[s[0] := Uri(s[0])]
    requires FirstNew((p + [s[0]]) + s[1..], m) == FirstNew(p + [s[0]], m) + NewIds(s[1..], w')
    ensures FirstNew(p + s, m) == FirstNew(p, m) + NewIds(s, w)
  {
    var a := s[0];
    assert (p + [a]) + s[1..] == p + s;
    assert (p + [a])[..|p + [a]| - 1] == p;
    var step := if HasProperty(w, a) then [] else [a];
    assert FirstNew(p + [a], m) == FirstNew(p, m) + step;
    assert NewIds(s, w) == step + NewIds(s[1..], w');
    Assoc(FirstNew(p, m), step, NewIds(s[1..], w'));
  }

  lemma Assoc(a: seq<string>, b: seq<string>, c: seq<string>)
    ensures (a + b) + c == a + (b + c)
  {
  }

  /** Walking the rest `s` of the input from there keeps exactly the first
      new occurrences of `p + s` that `p` did not already keep. */
  lemma {:induction false} WalkSplits(p: seq<string>, s: seq<string>, m: TrackMap, w: TrackMap)
    requires Walked(p, m, w)
    ensures FirstNew(p + s, m) == FirstNew(p, m) + NewIds(s, w)
    decreases |s|
  {
    if s == [] {
      assert p + s == p;
    } else {
      var a := s[0];
      var w' := if HasProperty(w, a) then w else w[a := Uri(a)];
      WalkOne(p, m, w, a);
      WalkSplits(p + [a], s[1..], m, w');
      WalkStep(p, s, m, w, w');
    }
  }

  /** The loop keeps exactly the first new occurrences, in input order. */
  lemma NewIdsAreFirstNew(ts: seq<string>, m: TrackMap)
    ensures NewIds(ts, m) == FirstNew(ts, m)
  {
    WalkSplits([], ts, m, m);
    assert [] + ts == ts;
  }

  /** An id is kept iff it is requested and not found in the playlist, and
      none is kept twice. */
  lemma {:induction false} NewIdsMembers(ts: seq<string>, m: TrackMap)
    ensures forall x :: x in NewIds(ts, m) <==> x in ts && !HasProperty(m, x)
    ensures Recency.Distinct(NewIds(ts, m))
  {
    if ts != [] {
      var a := ts[0];
      assert forall x :: x in ts <==> x == a || x in ts[1..];
      if HasProperty(m, a) {
        NewIdsMembers(ts[1..], m);
      } else {
        NewIdsMembers(ts[1..], m[a := Uri(a)]);
        var rest := NewIds(ts[1..], m[a := Uri(a)]);
        assert a !in rest;
        forall i, j | 0 <= i < j < |[a] + rest|
          ensures ([a] + rest)[i] != ([a] + rest)[j]
        {
          if i > 0 {
            assert ([a] + rest)[i] == rest[i - 1];
          }
        }
      }
    }
  }

  /** Writing one more kept id into the map: the map is always the
      original plus the URIs of the ids kept so far. */
  lemma WriteKept(m: TrackMap, kept: seq<string>, t: string)
    ensures (m + UriMap(kept))[t := Uri(t)] == m + UriMap(kept + [t])
  {
    UriMapSnoc(kept, t);
  }

  /** One step of the loop at index `i`, which has kept `kept` so far and
      written them into `w`: the id is either skipped or kept. */
  lemma NewIdsStep(ts: seq<string>, i: nat, m: TrackMap, kept: seq<string>, w: TrackMap)
    requires i < |ts|
    requires kept + NewIds(ts[i..], w) == NewIds(ts, m)
    ensures HasProperty(w, ts[i]) ==> kept + NewIds(ts[i + 1..], w) == NewIds(ts, m)
    ensures !HasProperty(w, ts[i]) ==>
      (kept + [ts[i]]) + NewIds(ts[i + 1..], w[ts[i] := Uri(ts[i])]) == NewIds(ts, m)
  {
    assert ts[i..][1..] == ts[i + 1..];
    var rest := NewIds(ts[i + 1..], w[ts[i] := Uri(ts[i])]);
    assert kept + ([ts[i]] + rest) == (kept + [ts[i]]) + rest;
  }

  /** The ids `removeDuplicates` keeps, as URIs. */
  function KeptUris(ts: seq<string>, m: TrackMap): seq<string>
  {
    Uris(NewIds(ts, m))
  }
}
