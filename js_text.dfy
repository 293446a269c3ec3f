/** The JavaScript string built-ins the bot's message handling relies on,
    written out on `seq<char>`: `trim`, `split(/ +/)`, `toLowerCase` on the
    ASCII letters, `parseInt(s, 10)`, `startsWith`/`endsWith`, `indexOf` and
    `replace` with a string pattern. */
module JsText {
  import opened Wrappers

  /** The characters `trim` and `parseInt` skip: the white space and line
      terminators of ECMAScript (tab, vertical tab, form feed, space,
      no-break space, byte order mark, the other space separators, line
      feed, carriage return, line and paragraph separators). */
  predicate IsWhite(c: char)
  {
    || c == '\t' || c == '\n' || c == '\U{000B}' || c == '\U{000C}' || c == '\r'
    || c == ' ' || c == '\U{00A0}' || c == '\U{1680}'
    || ('\U{2000}' <= c <= '\U{200A}')
    || c == '\U{2028}' || c == '\U{2029}' || c == '\U{202F}' || c == '\U{205F}'
    || c == '\U{3000}' || c == '\U{FEFF}'
  }

  predicate AllWhite(s: string)
  {
    forall i :: 0 <= i < |s| ==> IsWhite(s[i])
  }

  function TrimStart(s: string): string
  {
    if s != [] && IsWhite(s[0]) then TrimStart(s[1..]) else s
  }

  function TrimEnd(s: string): string
  {
    if s != [] && IsWhite(s[|s| - 1]) then TrimEnd(s[..|s| - 1]) else s
  }

  /** `s.trim()`. */
  function Trim(s: string): string
  {
    TrimEnd(TrimStart(s))
  }

  lemma {:induction false} TrimStartBounds(s: string) returns (i: nat)
    ensures i <= |s| && TrimStart(s) == s[i..] && AllWhite(s[..i])
    ensures TrimStart(s) != [] ==> !IsWhite(TrimStart(s)[0])
  {
    if s != [] && IsWhite(s[0]) {
      var k := TrimStartBounds(s[1..]);
      i := k + 1;
      assert s[1..][k..] == s[i..];
      assert forall j :: 0 < j < i ==> s[..i][j] == s[1..][..k][j - 1];
    } else {
      i := 0;
    }
  }

  lemma {:induction false} TrimEndBounds(s: string) returns (j: nat)
    ensures j <= |s| && TrimEnd(s) == s[..j] && AllWhite(s[j..])
    ensures TrimEnd(s) != [] ==> !IsWhite(TrimEnd(s)[|TrimEnd(s)| - 1])
  {
    if s != [] && IsWhite(s[|s| - 1]) {
      j := TrimEndBounds(s[..|s| - 1]);
      assert s[..|s| - 1][..j] == s[..j];
      forall k | 0 <= k < |s[j..]| ensures IsWhite(s[j..][k]) {
        if k < |s| - 1 - j {
          assert s[j..][k] == s[..|s| - 1][j..][k];
        }
      }
    } else {
      j := |s|;
    }
  }

  /** `trim` removes exactly the white space at both ends: the result is a
      slice of the input with only white space cut off either side, and it
      neither starts nor ends with white space. */
  lemma TrimBounds(s: string) returns (i: nat, j: nat)
    ensures i <= j <= |s| && Trim(s) == s[i..j]
    ensures AllWhite(s[..i]) && AllWhite(s[j..])
    ensures Trim(s) != [] ==> !IsWhite(Trim(s)[0]) && !IsWhite(Trim(s)[|Trim(s)| - 1])
  {
    i := TrimStartBounds(s);
    var k := TrimEndBounds(s[i..]);
    j := i + k;
    assert s[i..][..k] == s[i..j];
    assert s[j..] == s[i..][k..];
    if Trim(s) != [] {
      assert Trim(s)[0] == TrimStart(s)[0];
    }
  }

  lemma TrimStartIdle(s: string)
    requires s == [] || !IsWhite(s[0])
    ensures TrimStart(s) == s
  {
  }

  lemma TrimEndIdle(s: string)
    requires s == [] || !IsWhite(s[|s| - 1])
    ensures TrimEnd(s) == s
  {
  }

  /** Trimming twice is trimming once. */
  lemma TrimIdempotent(s: string)
    ensures Trim(Trim(s)) == Trim(s)
  {
    var i, j := TrimBounds(s);
    var t := Trim(s);
    TrimStartIdle(t);
    TrimEndIdle(t);
  }

  /** The pieces of `s.split(/ +/)`: `s` cut at every run of spaces. A
      leading or trailing run gives an empty first or last piece, and the
      empty string gives one empty piece. */
  function SplitSpaces(s: string): (r: seq<string>)
    ensures |r| >= 1
    decreases |s|
  {
    if s == [] then [""]
    else if s[0] == ' ' then [""] + SplitSpaces(DropSpaces(s))
    else
      var rest := SplitSpaces(s[1..]);
      [[s[0]] + rest[0]] + rest[1..]
  }

  /** `s` without its leading spaces. */
  function DropSpaces(s: string): (r: string)
    ensures |r| <= |s| && (s != [] && s[0] == ' ' ==> |r| < |s|)
    ensures r == [] || r[0] != ' '
  {
    if s != [] && s[0] == ' ' then DropSpaces(s[1..]) else s
  }

  /** The pieces joined again with one space between neighbours. */
  function JoinSpaces(ps: seq<string>): string
  {
    if ps == [] then "" else if |ps| == 1 then ps[0] else ps[0] + " " + JoinSpaces(ps[1..])
  }

  /** What `split(/ +/)` can return: at least one piece, none holding a
      space, and no empty piece except the first and the last. */
  ghost predicate SpacePieces(ps: seq<string>)
  {
    && |ps| >= 1
    && (forall i :: 0 <= i < |ps| ==> ' ' !in ps[i])
    && (forall i :: 0 < i < |ps| - 1 ==> ps[i] != "")
  }

  lemma {:induction false} SplitSpacesPieces(s: string)
    ensures SpacePieces(SplitSpaces(s))
    decreases |s|
  {
    if s == [] {
    } else if s[0] == ' ' {
      var t := DropSpaces(s);
      SplitSpacesPieces(t);
      var ps := SplitSpaces(t);
      if |ps| >= 2 && t != [] {
        SplitHeadNonEmpty(t);
      }
      assert forall i :: 0 < i < |[""] + ps| ==> ([""] + ps)[i] == ps[i - 1];
    } else {
      SplitSpacesPieces(s[1..]);
      var rest := SplitSpaces(s[1..]);
      var ps := [[s[0]] + rest[0]] + rest[1..];
      assert forall i :: 0 < i < |ps| ==> ps[i] == rest[i];
      assert ' ' !in [s[0]] + rest[0];
    }
  }

  /** A string that does not start with a space has a non-empty first piece. */
  lemma SplitHeadNonEmpty(s: string)
    requires s != [] && s[0] != ' '
    ensures SplitSpaces(s)[0] != ""
  {
  }

  /** Splitting a string with no space at the front of a rest. */
  lemma {:induction false} SplitPrefix(p: string, t: string)
    requires ' ' !in p
    ensures SplitSpaces(p + t) == [p + SplitSpaces(t)[0]] + SplitSpaces(t)[1..]
    decreases |p|
  {
    if p != [] {
      SplitPrefix(p[1..], t);
      assert (p + t)[1..] == p[1..] + t;
      assert [p[0]] + (p[1..] + SplitSpaces(t)[0]) == p + SplitSpaces(t)[0];
    } else {
      assert p + t == t;
      assert p + SplitSpaces(t)[0] == SplitSpaces(t)[0];
      assert SplitSpaces(t) == [SplitSpaces(t)[0]] + SplitSpaces(t)[1..];
    }
  }

  /** `split(/ +/)` undoes joining with single spaces any list of pieces it
      could have produced. */
  lemma {:induction false} SplitJoin(ps: seq<string>)
    requires SpacePieces(ps)
    ensures SplitSpaces(JoinSpaces(ps)) == ps
  {
    if |ps| == 1 {
      SplitPrefix(ps[0], "");
      assert ps[0] + "" == ps[0];
    } else {
      var rest := ps[1..];
      assert SpacePieces(rest) by {
        assert forall i :: 0 <= i < |rest| ==> rest[i] == ps[i + 1];
      }
      SplitJoin(rest);
      var j := JoinSpaces(rest);
      calc {
        SplitSpaces(" " + j);
        [""] + SplitSpaces(DropSpaces(" " + j));
        { SpaceThenPiece(j, rest); }
        [""] + rest;
      }
      SplitPrefix(ps[0], " " + j);
      assert ps[0] + (" " + j) == ps[0] + " " + j;
      assert ps[0] + "" == ps[0];
    }
  }

  /** After the single separating space the next piece starts at once. */
  lemma SpaceThenPiece(j: string, rest: seq<string>)
    requires SpacePieces(rest) && (|rest| >= 2 ==> rest[0] != "")
    requires j == JoinSpaces(rest)
    ensures DropSpaces(" " + j) == j
    ensures SplitSpaces(DropSpaces(" " + j)) == SplitSpaces(j)
  {
    assert (" " + j)[1..] == j;
    if j != [] {
      if |rest| == 1 {
        assert j == rest[0];
        assert j[0] in rest[0];
      } else {
        assert j[0] == rest[0][0];
        assert j[0] in rest[0];
      }
    }
  }

  /** Non-empty pieces joined with spaces start with the first piece's
      first character and end with the last piece's last character. */
  lemma {:induction false} JoinSpacesEnds(ps: seq<string>)
    requires |ps| >= 1 && forall i :: 0 <= i < |ps| ==> ps[i] != ""
    ensures JoinSpaces(ps) != [] && JoinSpaces(ps)[0] == ps[0][0]
    ensures JoinSpaces(ps)[|JoinSpaces(ps)| - 1] == ps[|ps| - 1][|ps[|ps| - 1]| - 1]
  {
    if |ps| > 1 {
      var rest := ps[1..];
      assert forall i :: 0 <= i < |rest| ==> rest[i] == ps[i + 1];
      JoinSpacesEnds(rest);
    }
  }

  function Lower(c: char): char
  {
    if 'A' <= c <= 'Z' then (c as int + 32) as char else c
  }

  /** `s.toLowerCase()` on the ASCII letters (other characters are kept). */
  function AsciiLower(s: string): (r: string)
    ensures |r| == |s|
    ensures forall i :: 0 <= i < |s| ==> r[i] == Lower(s[i])
  {
    if s == [] then [] else [Lower(s[0])] + AsciiLower(s[1..])
  }

  /** Hence a name compares equal to a lower-case name `n` after lowering
      exactly when it spells `n` in any mix of cases. */
  lemma AsciiLowerMatches(s: string, n: string)
    requires forall i :: 0 <= i < |n| ==> !('A' <= n[i] <= 'Z')
    ensures AsciiLower(s) == n <==>
      |s| == |n| && forall i :: 0 <= i < |s| ==> Lower(s[i]) == n[i]
  {
    if |s| == |n| && forall i :: 0 <= i < |s| ==> Lower(s[i]) == n[i] {
      assert AsciiLower(s) == n;
    }
  }

  predicate IsDigit(c: char)
  {
    '0' <= c <= '9'
  }

  /** The number of decimal digits at the front of `s`. */
  function DigitRun(s: string): (k: nat)
    ensures k <= |s|
    ensures forall i :: 0 <= i < k ==> IsDigit(s[i])
    ensures k < |s| ==> !IsDigit(s[k])
  {
    if s != [] && IsDigit(s[0]) then 1 + DigitRun(s[1..]) else 0
  }

  /** The value of a string of decimal digits. */
  function DigitsValue(ds: string): nat
    requires forall i :: 0 <= i < |ds| ==> IsDigit(ds[i])
  {
    if ds == [] then 0
    else
      assert IsDigit(ds[|ds| - 1]);
      DigitsValue(ds[..|ds| - 1]) * 10 + (ds[|ds| - 1] as int - '0' as int)
  }

  /** `parseInt(s, 10)`: leading white space is skipped, then an optional
      sign, then the longest run of decimal digits; no digit gives NaN, here
      None. Whatever follows the digits is ignored. */
  function ParseInt(s: string): Option<int>
  {
    var t := TrimStart(s);
    var negative := t != [] && t[0] == '-';
    var u := if t != [] && (t[0] == '-' || t[0] == '+') then t[1..] else t;
    var k := DigitRun(u);
    if k == 0 then None
    else
      var v: int := DigitsValue(u[..k]);
      var n: int := if negative then -v else v;
      Some(n)
  }

  function DigitChar(d: nat): char
    requires d < 10
  {
    ('0' as int + d) as char
  }

  /** `String(n)` of a natural number: its decimal digits. */
  function NatToString(n: nat): (r: string)
    ensures r != [] && forall i :: 0 <= i < |r| ==> IsDigit(r[i])
  {
    if n < 10 then [DigitChar(n)] else NatToString(n / 10) + [DigitChar(n % 10)]
  }

  /** `String(n)` of an integer. */
  function IntToString(n: int): string
  {
    if n < 0 then "-" + NatToString(-n) else NatToString(n)
  }

  lemma {:induction false} NatToStringValue(n: nat)
    ensures DigitsValue(NatToString(n)) == n
  {
    if n >= 10 {
      NatToStringValue(n / 10);
      var r := NatToString(n);
      assert r[..|r| - 1] == NatToString(n / 10);
    }
  }

  lemma DigitRunAll(s: string)
    requires forall i :: 0 <= i < |s| ==> IsDigit(s[i])
    ensures DigitRun(s) == |s|
  {
  }

  /** `parseInt` reads back the decimal form of every integer. */
  lemma ParseIntToString(n: int)
    ensures ParseInt(IntToString(n)) == Some(n)
  {
    var s := IntToString(n);
    var m: nat := if n < 0 then -n else n;
    var ds := NatToString(m);
    assert !IsWhite(s[0]);
    TrimStartIdle(s);
    if n < 0 {
      assert s[1..] == ds;
    }
    DigitRunAll(ds);
    assert ds[..|ds|] == ds;
    NatToStringValue(m);
  }

  /** A string with no digit after the white space and sign is NaN. */
  lemma ParseIntNaN(s: string)
    ensures ParseInt(s) == None <==>
      var t := TrimStart(s);
      var u := if t != [] && (t[0] == '-' || t[0] == '+') then t[1..] else t;
      u == [] || !IsDigit(u[0])
  {
  }

  /** Characters after the digits do not change the value. */
  lemma ParseIntIgnoresTail(ds: string, tail: string)
    requires ds != [] && forall i :: 0 <= i < |ds| ==> IsDigit(ds[i])
    requires tail == [] || !IsDigit(tail[0])
    ensures ParseInt(ds + tail) == Some(DigitsValue(ds))
  {
    var s := ds + tail;
    assert !IsWhite(s[0]) && s[0] != '-' && s[0] != '+';
    TrimStartIdle(s);
    DigitRunConcat(ds, tail);
    assert s[..|ds|] == ds;
  }

  lemma {:induction false} DigitRunConcat(ds: string, tail: string)
    requires forall i :: 0 <= i < |ds| ==> IsDigit(ds[i])
    requires tail == [] || !IsDigit(tail[0])
    ensures DigitRun(ds + tail) == |ds|
  {
    if ds != [] {
      assert (ds + tail)[1..] == ds[1..] + tail;
      DigitRunConcat(ds[1..], tail);
    } else {
      assert ds + tail == tail;
    }
  }

  /** `s.startsWith(p)`. */
  predicate StartsWith(s: string, p: string)
  {
    |p| <= |s| && s[..|p|] == p
  }

  /** `s.endsWith(p)`. */
  predicate EndsWith(s: string, p: string)
  {
    |p| <= |s| && s[|s| - |p|..] == p
  }

  predicate OccursAt(s: string, p: string, k: nat)
  {
    k + |p| <= |s| && s[k..k + |p|] == p
  }

  /** `s.indexOf(p, from)`, None for -1. */
  function IndexOf(s: string, p: string, from: nat): (r: Option<nat>)
    ensures r.Some? ==> from <= r.value && OccursAt(s, p, r.value)
    ensures r.Some? ==> forall k :: from <= k < r.value ==> !OccursAt(s, p, k)
    ensures r.None? ==> forall k :: from <= k ==> !OccursAt(s, p, k)
    decreases |s| - from
  {
    if from + |p| > |s| then None
    else if s[from..from + |p|] == p then Some(from)
    else IndexOf(s, p, from + 1)
  }

  /** `s.replace(p, rep)` with a string pattern: only the first occurrence
      is replaced. */
  function ReplaceFirst(s: string, p: string, rep: string): string
  {
    match IndexOf(s, p, 0)
    case None => s
    case Some(k) => s[..k] + rep + s[k + |p|..]
  }
}
