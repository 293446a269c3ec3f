/** Track identifiers, their canonical URIs and the id-to-URI membership maps
    that the cache stores for each playlist. */
module Tracks {

  /** Prefix of a canonical Spotify track URI (`spotify:track:${id}`). */
  const UriPrefix: string := "spotify:track:"

  function Uri(id: string): string
  {
    UriPrefix + id
  }

  /** A playlist's known membership: track id to its canonical URI. */
  type TrackMap = map<string, string>

  /** Every key maps to its own canonical URI. */
  ghost predicate WellFormed(m: TrackMap)
  {
    forall id :: id in m ==> m[id] == Uri(id)
  }

  /** The membership map built from a list of track ids. */
  function UriMap(ids: seq<string>): TrackMap
  {
    map id | id in ids :: Uri(id)
  }

  /** The URIs of a list of track ids, in order. */
  function Uris(ids: seq<string>): (r: seq<string>)
    ensures |r| == |ids|
    ensures forall i :: 0 <= i < |ids| ==> r[i] == Uri(ids[i])
  {
    if ids == [] then [] else [Uri(ids[0])] + Uris(ids[1..])
  }

  /** Distinct ids have distinct URIs: the URI determines the id. */
  lemma UriInjective(a: string, b: string)
    requires Uri(a) == Uri(b)
    ensures a == b
  {
    assert a == Uri(a)[|UriPrefix|..];
    assert b == Uri(b)[|UriPrefix|..];
  }

  lemma UriMapWellFormed(ids: seq<string>)
    ensures WellFormed(UriMap(ids))
    ensures UriMap(ids).Keys == set id | id in ids
  {
  }

  /** Writing `m[id] = uri` for one more id extends the map built from
      the ids written so far. */
  lemma UriMapSnoc(ids: seq<string>, id: string)
    ensures UriMap(ids + [id]) == UriMap(ids)[id := Uri(id)]
  {
    var l, r := UriMap(ids + [id]), UriMap(ids)[id := Uri(id)];
    forall k ensures k in l <==> k in r {
      assert k in ids + [id] <==> k in ids || k == id;
    }
  }

  /** The names every plain JavaScript object inherits from
      `Object.prototype`: `key in obj` holds for them even when `obj` has
      no such own key. */
  const InheritedNames: set<string> :=
    {"constructor", "hasOwnProperty", "isPrototypeOf", "propertyIsEnumerable",
     "toLocaleString", "toString", "valueOf", "__proto__",
     "__defineGetter__", "__defineSetter__", "__lookupGetter__", "__lookupSetter__"}

  /** JavaScript's `key in m` for a map held in a plain object. */
  predicate HasProperty(m: TrackMap, key: string)
  {
    key in m || key in InheritedNames
  }

  /** `updateSong` keeps a map well formed. */
  lemma UpdatePreservesWellFormed(m: TrackMap, id: string)
    requires WellFormed(m)
    ensures WellFormed(m[id := Uri(id)])
  {
  }

  lemma UrisSnoc(ids: seq<string>, id: string)
    ensures Uris(ids + [id]) == Uris(ids) + [Uri(id)]
  {
    var l, r := Uris(ids + [id]), Uris(ids) + [Uri(id)];
    assert forall i :: 0 <= i < |l| ==> l[i] == r[i];
  }

  /** `Object.values(m)`: every URI of the map once. The source gets them
      in the object's insertion order, which a map does not record; the
      model lists them in an order it does not fix. */
  method ObjectValues(m: TrackMap) returns (vals: seq<string>)
    requires WellFormed(m)
    ensures |vals| == |m|
    ensures forall i, j :: 0 <= i < j < |vals| ==> vals[i] != vals[j]
    ensures forall v :: v in vals <==> v in m.Values
  {
    var rest := m;
    vals := [];
    while rest != map[]
      invariant rest.Keys <= m.Keys
      invariant forall k :: k in rest ==> rest[k] == m[k]
      invariant |vals| + |rest| == |m|
      invariant forall v :: v in vals <==> v in m.Values && v !in rest.Values
      invariant forall i, j :: 0 <= i < j < |vals| ==> vals[i] != vals[j]
      decreases |rest|
    {
      var k :| k in rest;
      forall v | v in rest.Values && v != rest[k] ensures v in (rest - {k}).Values {
        var k' :| k' in rest && rest[k'] == v;
        assert k' != k;
        assert (rest - {k})[k'] == v;
      }
      forall v | v in (rest - {k}).Values ensures v != rest[k] {
        var k' :| k' in rest - {k} && (rest - {k})[k'] == v;
        if v == rest[k] {
          UriInjective(k', k);
        }
      }
      assert rest[k] in rest.Values;
      assert rest[k] !in vals;
      assert |(rest - {k}).Keys| == |rest.Keys - {k}| == |rest.Keys| - 1;
      vals := vals + [rest[k]];
      rest := rest - {k};
    }
  }
}
