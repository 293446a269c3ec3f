/** The `fill` command (commands/fill.js): a moderator asks the bot to read
    the channel's history, newest message first, and add every track
    linked in it to the guild's playlist, at most once every three hours. */
module FillCommand {
  import opened Wrappers
  import opened JsText
  import opened LinkScan
  import opened Settings
  import Dedup

  /** A message of the channel's history. */
  datatype ChatMessage = ChatMessage(id: string, content: string)

  /** `Number.MAX_SAFE_INTEGER`, the default cap of `getAllSongs`. */
  const MaxSafeInteger: int := 9007199254740991

  /** The most messages one fetch returns. */
  const FetchLimit: nat := 100

  /** Message ids are unique within a channel. */
  ghost predicate DistinctIds(history: seq<ChatMessage>)
  {
    forall i, j :: 0 <= i < j < |history| ==> history[i].id != history[j].id
  }

  /** The position of the message with id `id`. */
  function PositionOf(history: seq<ChatMessage>, id: string): (k: nat)
    requires exists i :: 0 <= i < |history| && history[i].id == id
    ensures k < |history| && history[k].id == id
    ensures forall i :: 0 <= i < k ==> history[i].id != id
  {
    if history[0].id == id then 0
    else
      assert exists i :: 1 <= i < |history| && history[i].id == id;
      assert exists i :: 0 <= i < |history[1..]| && history[1..][i].id == id by {
        var i :| 1 <= i < |history| && history[i].id == id;
        assert history[1..][i - 1].id == id;
      }
      1 + PositionOf(history[1..], id)
  }

  /** The block of up to 100 messages from position `start` on. */
  function Window(history: seq<ChatMessage>, start: nat): seq<ChatMessage>
  {
    history[Min(start, |history|)..Min(start + FetchLimit, |history|)]
  }

  /** A window is the slice of the history it starts at, empty only past
      the end. */
  lemma WindowSlice(history: seq<ChatMessage>, start: nat)
    requires start <= |history|
    ensures start + |Window(history, start)| <= |history|
    ensures Window(history, start) == history[start..start + |Window(history, start)|]
    ensures Window(history, start) == [] <==> start == |history|
  {
  }

  /** `messages.fetch({limit: 100})` when `before` is None, and
      `messages.fetch({limit: 100, before})` otherwise: the up to 100
      messages just older than `before`, newest first. */
  function Fetch(history: seq<ChatMessage>, before: Option<string>): seq<ChatMessage>
    requires before.Some? ==> exists i :: 0 <= i < |history| && history[i].id == before.value
  {
    match before
    case None => Window(history, 0)
    case Some(id) => Window(history, PositionOf(history, id) + 1)
  }

  /** In a channel with unique ids, fetching before the message at `i`
      gives the window that starts right after it. */
  lemma FetchAfter(history: seq<ChatMessage>, i: nat)
    requires DistinctIds(history) && i < |history|
    ensures Fetch(history, Some(history[i].id)) == Window(history, i + 1)
  {
  }

  /** Fetching before the last message of a non-empty window gives the
      window right after it. */
  lemma NextWindow(history: seq<ChatMessage>, start: nat)
    requires DistinctIds(history) && start < |history|
    ensures var w := Window(history, start);
      && w != [] && start + |w| <= |history|
      && history[start + |w| - 1] == w[|w| - 1]
      && Fetch(history, Some(w[|w| - 1].id)) == Window(history, start + |w|)
  {
    var w := Window(history, start);
    assert history[start + |w| - 1] == w[|w| - 1];
    FetchAfter(history, start + |w| - 1);
  }

  /** The ids taken from each message in turn: the reference for the
      result of `getAllSongs`. */
  function LinksOf(msgs: seq<ChatMessage>): seq<string>
  {
    if msgs == [] then [] else LinksOf(msgs[..|msgs| - 1]) + TrackIds(msgs[|msgs| - 1].content)
  }

  /** The ids of several messages follow message order. */
  lemma {:induction false} LinksOfAppend(a: seq<ChatMessage>, b: seq<ChatMessage>)
    ensures LinksOf(a + b) == LinksOf(a) + LinksOf(b)
    decreases |b|
  {
    if b == [] {
      assert a + b == a;
    } else {
      var init, last := b[..|b| - 1], b[|b| - 1];
      LinksOfAppend(a, init);
      assert (a + b)[..|a + b| - 1] == a + init;
      assert (a + b)[|a + b| - 1] == last;
      assert LinksOf(a + b) == LinksOf(a + init) + TrackIds(last.content);
      Dedup.Assoc(LinksOf(a), LinksOf(init), TrackIds(last.content));
    }
  }

  /** One more message adds its ids at the end. */
  lemma LinksOfSnoc(history: seq<ChatMessage>, k: nat)
    requires k < |history|
    ensures LinksOf(history[..k + 1]) == LinksOf(history[..k]) + TrackIds(history[k].content)
  {
    assert history[..k + 1][..k] == history[..k];
  }

  /** How many messages a scan with cap `maxMessage` inspects: the cap is
      compared for equality before each message, so a negative cap never
      stops the scan. */
  function Inspected(maxMessage: int, n: nat): nat
  {
    if 0 <= maxMessage < n then maxMessage else n
  }

  /** `getAllSongs`: fetch the history 100 messages at a time, newest
      first, and collect the ids of the links in each message that comes
      before the cap. */
  method GetAllSongs(history: seq<ChatMessage>, maxMessage: int) returns (songList: seq<string>)
    requires DistinctIds(history)
    ensures songList == LinksOf(history[..Inspected(maxMessage, |history|)])
  {
    songList := [];
    var messageList := Fetch(history, None);
    ghost var start: nat := 0;
    var currentMessage := 0;
    while messageList != []
      invariant start <= |history| && messageList == Window(history, start)
      invariant currentMessage == start
      invariant 0 <= maxMessage ==> currentMessage <= maxMessage
      invariant songList == LinksOf(history[..start])
      decreases |history| - start
    {
      WindowSlice(history, start);
      var capped;
      songList, currentMessage, capped := ScanPage(messageList, songList, currentMessage, maxMessage, history, start);
      if capped {
        return songList;
      }
      var last := messageList[|messageList| - 1];
      NextWindow(history, start);
      start := start + |messageList|;
      messageList := Fetch(history, Some(last.id));
    }
    WindowSlice(history, start);
    assert history[..start] == history[..|history|];
  }

  /** The `for` loop of `getAllSongs` over one fetched page, which starts
      at position `start` of the history: it stops early, `capped`, when
      the count of inspected messages reaches the cap. */
  method ScanPage(page: seq<ChatMessage>, songList: seq<string>, currentMessage: int, maxMessage: int,
                  ghost history: seq<ChatMessage>, ghost start: nat)
    returns (songs: seq<string>, count: int, capped: bool)
    requires start + |page| <= |history|
    requires forall i :: 0 <= i < |page| ==> page[i] == history[start + i]
    requires currentMessage == start && (0 <= maxMessage ==> currentMessage <= maxMessage)
    requires songList == LinksOf(history[..start])
    ensures capped ==> 0 <= maxMessage < |history| && songs == LinksOf(history[..maxMessage])
    ensures !capped ==> count == start + |page| && (0 <= maxMessage ==> count <= maxMessage)
    ensures !capped ==> songs == LinksOf(history[..count])
  {
    songs, count := songList, currentMessage;
    for j := 0 to |page|
      invariant count == start + j
      invariant 0 <= maxMessage ==> count <= maxMessage
      invariant songs == LinksOf(history[..count])
    {
      if count == maxMessage {
        return songs, count, true;
      }
      var message := page[j];
      LinksOfSnoc(history, count);
      songs := PushTracks(songs, message.content);
      count := count + 1;
    }
    return songs, count, false;
  }

  /** The inner loop of `getAllSongs` on one message: each match, with
      its tracker and the URL prefix removed, is appended. */
  method PushTracks(songList: seq<string>, content: string) returns (r: seq<string>)
    ensures r == songList + TrackIds(content)
  {
    r := songList;
    var matches := Matches(content);
    if matches != [] {
      for t := 0 to |matches|
        invariant r == songList + TrackIds(content)[..t]
      {
        var track := StripTracker(matches[t]);
        r := r + [StripUrl(track)];
        assert TrackIds(content)[..t + 1] == TrackIds(content)[..t] + [TrackId(matches[t])];
      }
    }
    assert TrackIds(content)[..|matches|] == TrackIds(content);
  }

  /** The cap the arguments ask for: none means every message; one integer
      argument n means n + 1 (the command message itself is the newest);
      anything else is not understood. */
  function FillCap(args: seq<string>): Option<int>
  {
    if |args| == 0 then Some(MaxSafeInteger)
    else if |args| == 1 then
      match ParseInt(args[0])
      case Some(n) => Some(n + 1)
      case None => None
    else None
  }

  /** `fill n` for any integer n caps the scan at n + 1; `fill` with no
      argument scans up to 2^53 - 1 messages; two arguments are refused. */
  lemma FillCapArguments(n: int, a: string, b: string)
    ensures FillCap([IntToString(n)]) == Some(n + 1)
    ensures FillCap([]) == Some(MaxSafeInteger)
    ensures FillCap([a, b]) == None
  {
    ParseIntToString(n);
  }

  /** What the scan of `fill n` covers: for n >= 0 the newest n + 1
      messages, for n = -1 none, and for any smaller n the whole history. */
  lemma FillScanLength(n: int, len: nat)
    ensures n >= 0 ==> Inspected(n + 1, len) == Min(n + 1, len)
    ensures n == -1 ==> Inspected(n + 1, len) == 0
    ensures n < -1 ==> Inspected(n + 1, len) == len
  {
  }

  datatype FillOutcome =
    | Ignored                                  // the sender may not moderate
    | Refused(waitMs: int)                     // the three-hour gate is closed
    | Filled(cap: int, songs: seq<string>)     // these ids go to `batchAddSongs`
    | NotUnderstood                            // 'Unable to understand fill command'

  /** What `execute` answers and does to the configuration: a
      moderator past the gate with understood arguments starts the scan
      and the gate closes at once, whatever the scan and the upload later
      yield; every other case changes nothing. */
  twostate predicate Executed(config: Config, guild: string, moderator: bool, args: seq<string>, now: int,
                              history: seq<ChatMessage>, outcome: FillOutcome)
    requires moderator ==> old(guild in config.serverList)
    reads config
  {
    && (!moderator ==> outcome == Ignored && unchanged(config))
    && (moderator && CoolingDown(old(config.serverList[guild].fillCooldown), now) ==>
          outcome == Refused(WaitMs(old(config.serverList[guild].fillCooldown.value), now))
          && unchanged(config))
    && (moderator && !CoolingDown(old(config.serverList[guild].fillCooldown), now) ==>
          match FillCap(args)
          case None => outcome == NotUnderstood && unchanged(config)
          case Some(cap) =>
            && outcome == Filled(cap, LinksOf(history[..Inspected(cap, |history|)]))
            && config.validPrefixes == old(config.validPrefixes)
            && config.serverList == old(config.serverList)[guild :=
                 old(config.serverList[guild]).(fillCooldown := Some(now))])
  }

  /** `execute`. */
  method Execute(config: Config, guild: string, moderator: bool, args: seq<string>, now: int,
                 history: seq<ChatMessage>)
    returns (outcome: FillOutcome)
    requires moderator ==> guild in config.serverList
    requires DistinctIds(history)
    modifies config
    ensures Executed(config, guild, moderator, args, now, history, outcome)
  {
    if !moderator {
      return Ignored;
    }
    var guildSettings := config.serverList[guild];
    if CoolingDown(guildSettings.fillCooldown, now) {
      return Refused(WaitMs(guildSettings.fillCooldown.value, now));
    }
    if |args| == 1 {
      var maxMessages := ParseInt(args[0]);
      if maxMessages != None {
        var songs := GetAllSongs(history, maxMessages.value + 1);
        config.serverList := config.serverList[guild := guildSettings.(fillCooldown := Some(now))];
        return Filled(maxMessages.value + 1, songs);
      }
    } else if |args| == 0 {
      var songs := GetAllSongs(history, MaxSafeInteger);
      config.serverList := config.serverList[guild := guildSettings.(fillCooldown := Some(now))];
      return Filled(MaxSafeInteger, songs);
    }
    return NotUnderstood;
  }
}
