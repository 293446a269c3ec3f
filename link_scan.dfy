/** Finding track links in a message, as the pattern
    `https:\/\/open.spotify.com\/track\/[a-zA-Z0-9]+` with the global flag
    does (commands/fill.js:23-24, src/song-link-reader.js:157,
    index.js:61). The two dots of the pattern are not escaped, so each
    matches any character except a line terminator; the scanner below is
    faithful to that. The matched link then loses a `?si=` tracker (which it
    can never hold) and the literal URL prefix. */
module LinkScan {
  import opened Wrappers
  import opened JsText

  /** The literal prefix of a track link (31 characters). */
  const TrackUrl: string := "https://open.spotify.com/track/"
  const UrlLen: nat := 31

  /** Positions 12 and 20 of the pattern are the unescaped dots. */
  predicate IsWildcard(i: nat)
  {
    i == 12 || i == 20
  }

  /** The characters a regular expression `.` does not match. */
  predicate IsLineTerminator(c: char)
  {
    c == '\n' || c == '\r' || c == '\U{2028}' || c == '\U{2029}'
  }

  predicate IsAlnum(c: char)
  {
    ('a' <= c <= 'z') || ('A' <= c <= 'Z') || ('0' <= c <= '9')
  }

  /** Character `c` is accepted at position `i` of the prefix part. */
  predicate PatternChar(i: nat, c: char)
    requires i < UrlLen
  {
    if IsWildcard(i) then !IsLineTerminator(c) else c == TrackUrl[i]
  }

  /** The prefix part of the pattern matches at `k`. */
  predicate PrefixAt(s: string, k: nat)
  {
    k + UrlLen <= |s| && forall i :: k <= i < k + UrlLen ==> PatternChar(i - k, s[i])
  }

  /** The length of the run of letters and digits at `j`. */
  function AlnumRun(s: string, j: nat): (n: nat)
    requires j <= |s|
    ensures j + n <= |s|
    ensures forall i :: j <= i < j + n ==> IsAlnum(s[i])
    ensures j + n < |s| ==> !IsAlnum(s[j + n])
    decreases |s| - j
  {
    if j < |s| && IsAlnum(s[j]) then 1 + AlnumRun(s, j + 1) else 0
  }

  /** The whole pattern matches at `k`: the prefix part and at least one
      letter or digit. */
  predicate MatchAt(s: string, k: nat)
  {
    PrefixAt(s, k) && k + UrlLen < |s| && IsAlnum(s[k + UrlLen])
  }

  /** Where the greedy `[a-zA-Z0-9]+` of a match at `k` ends. */
  function MatchEnd(s: string, k: nat): (e: nat)
    requires MatchAt(s, k)
    ensures k + UrlLen < e <= |s|
  {
    k + UrlLen + AlnumRun(s, k + UrlLen)
  }

  /** The global match from position `p` on: the leftmost match, then the
      scan resumes where it ended. */
  function Scan(s: string, p: nat): seq<string>
    requires p <= |s|
    decreases |s| - p
  {
    if p == |s| then []
    else if MatchAt(s, p) then [s[p..MatchEnd(s, p)]] + Scan(s, MatchEnd(s, p))
    else Scan(s, p + 1)
  }

  /** `s.match(pattern)`; the source's `null` is the empty list here. */
  function Matches(s: string): seq<string>
  {
    Scan(s, 0)
  }

  /** What a match looks like: the prefix part and a non-empty run of
      letters and digits, nothing else. */
  ghost predicate Link(m: string)
  {
    && |m| > UrlLen
    && PrefixAt(m, 0)
    && forall i :: UrlLen <= i < |m| ==> IsAlnum(m[i])
  }

  lemma MatchIsLink(s: string, k: nat)
    requires MatchAt(s, k)
    ensures Link(s[k..MatchEnd(s, k)])
  {
    var m := s[k..MatchEnd(s, k)];
    assert forall i :: 0 <= i < UrlLen ==> m[i] == s[k + i];
    assert forall i :: UrlLen <= i < |m| ==> m[i] == s[k + i];
  }

  /** Every match is a link, found in the text at or after `p`. */
  lemma {:induction false} ScanLinks(s: string, p: nat)
    requires p <= |s|
    ensures forall m :: m in Scan(s, p) ==> Link(m)
    decreases |s| - p
  {
    if p < |s| {
      if MatchAt(s, p) {
        MatchIsLink(s, p);
        ScanLinks(s, MatchEnd(s, p));
      } else {
        ScanLinks(s, p + 1);
      }
    }
  }

  /** The scan from `p` finds nothing exactly when the pattern matches at
      no position from `p` on. */
  lemma {:induction false} ScanEmpty(s: string, p: nat)
    requires p <= |s|
    ensures Scan(s, p) == [] <==> forall k :: p <= k ==> !MatchAt(s, k)
    decreases |s| - p
  {
    if p < |s| && !MatchAt(s, p) {
      ScanEmpty(s, p + 1);
    }
  }

  /** `match` returns null exactly when no link is in the text. */
  lemma MatchesNull(s: string)
    ensures Matches(s) == [] <==> forall k :: !MatchAt(s, k)
  {
    ScanEmpty(s, 0);
  }

  /** The `?si=` tracker pattern `\?si=[a-zA-Z0-9]+` matches at `k`. */
  predicate TrackerAt(s: string, k: nat)
  {
    k + 4 < |s| && s[k] == '?' && s[k + 1] == 's' && s[k + 2] == 'i' && s[k + 3] == '='
    && IsAlnum(s[k + 4])
  }

  function FirstTracker(s: string, from: nat): (r: Option<nat>)
    ensures r.Some? ==> from <= r.value && TrackerAt(s, r.value)
    ensures r.Some? ==> forall k :: from <= k < r.value ==> !TrackerAt(s, k)
    ensures r.None? ==> forall k :: from <= k ==> !TrackerAt(s, k)
    decreases |s| - from
  {
    if from + 4 >= |s| then None
    else if TrackerAt(s, from) then Some(from)
    else FirstTracker(s, from + 1)
  }

  /** `s.replace(/\?si=[a-zA-Z0-9]+/, '')`: the first tracker is cut out. */
  function StripTracker(s: string): string
  {
    match FirstTracker(s, 0)
    case None => s
    case Some(k) => s[..k] + s[k + 4 + AlnumRun(s, k + 4)..]
  }

  /** `s.replace('https://open.spotify.com/track/', '')`. */
  function StripUrl(s: string): string
  {
    ReplaceFirst(s, TrackUrl, "")
  }

  /** The id the source takes from one match. */
  function TrackId(m: string): string
  {
    StripUrl(StripTracker(m))
  }

  /** The ids of every link in a message, in match order. */
  function TrackIds(content: string): (ids: seq<string>)
    ensures |ids| == |Matches(content)|
  {
    var ms := Matches(content);
    seq(|ms|, i requires 0 <= i < |ms| => TrackId(ms[i]))
  }

  /** A link never holds a tracker: a `?` can only sit at a wildcard, and
      neither wildcard is followed by `si=`. So removing the tracker never
      changes a match. */
  lemma LinkHasNoTracker(m: string)
    requires Link(m)
    ensures StripTracker(m) == m
  {
    forall k: nat ensures !TrackerAt(m, k) {
      NoTrackerAt(m, k);
    }
  }

  lemma NoTrackerAt(m: string, k: nat)
    requires Link(m)
    ensures !TrackerAt(m, k)
  {
    if TrackerAt(m, k) && k < UrlLen && !IsWildcard(k) {
      assert PatternChar(k, m[k]);
      NoQuestionInUrl(k);
    }
  }

  lemma NoQuestionInUrl(i: nat)
    requires i < UrlLen
    ensures TrackUrl[i] != '?'
  {
    assert '?' !in TrackUrl;
  }

  /** A link holds the literal prefix nowhere but at its start: the `:` of
      the prefix could only sit at position 5 or at a wildcard. */
  lemma UrlOnlyAtStart(m: string, k: nat)
    requires Link(m) && OccursAt(m, TrackUrl, k)
    ensures k == 0
  {
    assert m[k..k + UrlLen][5] == TrackUrl[5];
    assert m[k + 5] == ':';
    assert m[k..k + UrlLen][0] == TrackUrl[0];
    assert m[k] == 'h';
    if k + 5 < UrlLen {
      assert PatternChar(k + 5, m[k + 5]);
      assert k + 5 == 5 || k + 5 == 12 || k + 5 == 20;
      assert PatternChar(k, m[k]);
    }
  }

  /** The id of a match: the run after the prefix when the match starts
      with the literal prefix, otherwise the whole match, untouched, since
      a wildcard let another character through. */
  lemma TrackIdOfLink(m: string)
    requires Link(m)
    ensures TrackId(m) == if m[..UrlLen] == TrackUrl then m[UrlLen..] else m
  {
    LinkHasNoTracker(m);
    var r := IndexOf(m, TrackUrl, 0);
    if r.Some? {
      UrlOnlyAtStart(m, r.value);
      assert m[..0] + "" + m[UrlLen..] == m[UrlLen..];
    } else {
      assert !OccursAt(m, TrackUrl, 0);
    }
  }

  /** Every id the source takes from a message is a run of letters and
      digits, or a whole match whose prefix differs from the literal. */
  lemma TrackIdsShape(content: string)
    ensures forall i :: 0 <= i < |TrackIds(content)| ==>
      var m := Matches(content)[i];
      Link(m) && TrackIds(content)[i] == (if m[..UrlLen] == TrackUrl then m[UrlLen..] else m)
  {
    ScanLinks(content, 0);
    forall i | 0 <= i < |TrackIds(content)|
      ensures var m := Matches(content)[i];
        Link(m) && TrackIds(content)[i] == (if m[..UrlLen] == TrackUrl then m[UrlLen..] else m)
    {
      TrackIdOfLink(Matches(content)[i]);
    }
  }

  predicate AlnumId(id: string)
  {
    id != [] && forall i :: 0 <= i < |id| ==> IsAlnum(id[i])
  }

  /** A message that is just the link of a track id yields that id. */
  lemma LinkRoundTrip(id: string)
    requires AlnumId(id)
    ensures Matches(TrackUrl + id) == [TrackUrl + id]
    ensures TrackIds(TrackUrl + id) == [id]
  {
    var s := TrackUrl + id;
    assert forall i :: 0 <= i < UrlLen ==> s[i] == TrackUrl[i];
    assert PrefixAt(s, 0);
    assert s[UrlLen] == id[0];
    assert MatchAt(s, 0);
    RunToEnd(s, UrlLen);
    assert s[0..|s|] == s;
    assert MatchEnd(s, 0) == |s|;
    assert Scan(s, |s|) == [];
    assert Matches(s) == [s];
    TrackIdOfLink(s);
    assert s[..UrlLen] == TrackUrl;
    assert s[UrlLen..] == id;
  }

  lemma {:induction false} RunToEnd(s: string, j: nat)
    requires j <= |s| && forall i :: j <= i < |s| ==> IsAlnum(s[i])
    ensures AlnumRun(s, j) == |s| - j
    decreases |s| - j
  {
    if j < |s| {
      RunToEnd(s, j + 1);
    }
  }

  /** The unescaped dots at work: whatever stands at the two dots (other
      than a line terminator), the address is matched; unless both are
      dots, the match does not start with the literal prefix and is handed
      on whole as the id. */
  lemma LookAlikeMatched(x: char, y: char, id: string)
    requires !IsLineTerminator(x) && !IsLineTerminator(y) && AlnumId(id)
    ensures var s := TrackUrl[12 := x][20 := y] + id;
      && Matches(s) == [s]
      && TrackIds(s) == if x == '.' && y == '.' then [id] else [s]
  {
    var u := TrackUrl[12 := x][20 := y];
    var s := u + id;
    assert forall i :: 0 <= i < UrlLen ==> s[i] == u[i];
    assert PrefixAt(s, 0);
    assert s[UrlLen] == id[0];
    RunToEnd(s, UrlLen);
    assert s[0..|s|] == s;
    assert MatchEnd(s, 0) == |s|;
    assert Scan(s, |s|) == [];
    MatchIsLink(s, 0);
    TrackIdsOne(s, s);
    TrackIdOfLink(s);
    assert s[..UrlLen] == u && s[UrlLen..] == id;
    DotsOnly(x, y);
  }

  lemma TrackIdsOne(content: string, m: string)
    requires Matches(content) == [m]
    ensures TrackIds(content) == [TrackId(m)]
  {
  }

  /** Only dots at both wildcards spell the literal prefix. */
  lemma DotsOnly(x: char, y: char)
    ensures TrackUrl[12 := x][20 := y] == TrackUrl <==> x == '.' && y == '.'
  {
    var u := TrackUrl[12 := x][20 := y];
    assert TrackUrl[12] == '.' && TrackUrl[20] == '.';
    assert u[12] == x && u[20] == y;
    if x == '.' && y == '.' {
      assert forall i :: 0 <= i < |u| ==> u[i] == TrackUrl[i];
    }
  }
}
