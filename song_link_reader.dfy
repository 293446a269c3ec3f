/** The message router and the guild event handlers of
    src/song-link-reader.js: a message with track links in the music
    channel goes to the playlist, a message that starts with the guild's
    prefix runs a command, and the guild's settings follow the guild's
    channels and joins. */
module SongLinkReader {
  import opened Wrappers
  import opened JsText
  import opened LinkScan
  import opened Settings
  import FillCommand
  import SetCommand
  import ResetCommand

  /** A chat message: its guild and channel ids, its text, whether a bot
      sent it and whether its author may moderate the guild. */
  datatype Message = Message(guild: string, channel: string, content: string,
                             fromBot: bool, privileged: bool)

  /** What the router does with a message. */
  datatype Route =
    | Ignore
    | AddSongs(ids: seq<string>, playlistId: string) // `batchAddSongs(ids, playlistId)`
    | ReplyBroken                                    // 'Something has gone horribly wrong, ...'
    | Dispatch(name: string, args: seq<string>)      // `command.execute(message, args, ...)`

  /** The names of the command files: the commands the client knows. */
  const CommandNames: set<string> := {"fill", "playlist", "reset", "set"}

  /** The message may be read at all: no music channel is set, or it was
      sent there. */
  predicate InMusicChannel(s: GuildSettings, msg: Message)
  {
    s.musicChannel == "" || msg.channel == s.musicChannel
  }

  /** The link path: the guild works, has a music channel, a person sent
      the message and it holds at least one link. */
  predicate TakesLinks(s: GuildSettings, msg: Message)
  {
    s.operational && s.musicChannel != "" && !msg.fromBot && Matches(msg.content) != []
  }

  /** The words of a command line: what follows the prefix, trimmed and
      split at runs of spaces. */
  function CommandWords(prefix: string, content: string): (words: seq<string>)
    requires StartsWith(content, prefix)
    ensures |words| >= 1
  {
    SplitSpaces(Trim(content[|prefix|..]))
  }

  /** `parseMessage` once the guild's settings are found. */
  function RouteSettings(s: GuildSettings, msg: Message): Route
  {
    if !InMusicChannel(s, msg) then Ignore
    else if TakesLinks(s, msg) then AddSongs(TrackIds(msg.content), s.playlistId)
    else if !StartsWith(msg.content, s.prefix) || msg.fromBot then Ignore
    else if !s.operational then (if msg.privileged then ReplyBroken else Ignore)
    else
      var words := CommandWords(s.prefix, msg.content);
      var name := AsciiLower(words[0]);
      if name in CommandNames then Dispatch(name, words[1..]) else Ignore
  }

  /** `parseMessage`: a guild with no entry in `server_list` yet is ignored. */
  function ParseMessage(serverList: map<string, GuildSettings>, msg: Message): Route
  {
    if msg.guild !in serverList then Ignore else RouteSettings(serverList[msg.guild], msg)
  }

  /** A message from a guild without settings does nothing. */
  lemma UnregisteredIgnored(serverList: map<string, GuildSettings>, msg: Message)
    requires msg.guild !in serverList
    ensures ParseMessage(serverList, msg) == Ignore
  {
  }

  /** Only a message from a registered guild reaches a command, so every
      command finds the guild's settings. */
  lemma DispatchRegistered(serverList: map<string, GuildSettings>, msg: Message)
    ensures ParseMessage(serverList, msg).Dispatch? ==> msg.guild in serverList
    ensures ParseMessage(serverList, msg).Dispatch? ==> ParseMessage(serverList, msg).name in CommandNames
  {
  }

  /** Songs are added exactly when the message is in the music channel
      and takes the link path, and then the ids are the message's links
      with the URL prefix removed, sent to the guild's playlist. */
  lemma AddSongsExactly(s: GuildSettings, msg: Message)
    ensures RouteSettings(s, msg).AddSongs? <==> InMusicChannel(s, msg) && TakesLinks(s, msg)
    ensures RouteSettings(s, msg).AddSongs? ==>
      RouteSettings(s, msg) == AddSongs(TrackIds(msg.content), s.playlistId)
      && |RouteSettings(s, msg).ids| >= 1
  {
  }

  /** A person's message that is just the link of a track, in the music
      channel of a working guild, adds that one track. */
  lemma LinkMessageAdds(s: GuildSettings, msg: Message, id: string)
    requires AlnumId(id) && msg.content == TrackUrl + id
    requires s.operational && s.musicChannel != "" && msg.channel == s.musicChannel && !msg.fromBot
    ensures RouteSettings(s, msg) == AddSongs([id], s.playlistId)
  {
    LinkRoundTrip(id);
  }

  /** A command runs exactly when the message is readable, does not take
      the link path, starts with the prefix, comes from a person, the
      guild works and the lower-cased first word names a command; the
      rest of the words are its arguments. */
  lemma DispatchExactly(s: GuildSettings, msg: Message)
    ensures RouteSettings(s, msg).Dispatch? <==>
      && InMusicChannel(s, msg) && !TakesLinks(s, msg)
      && StartsWith(msg.content, s.prefix) && !msg.fromBot && s.operational
      && AsciiLower(CommandWords(s.prefix, msg.content)[0]) in CommandNames
    ensures RouteSettings(s, msg).Dispatch? ==>
      var words := CommandWords(s.prefix, msg.content);
      RouteSettings(s, msg) == Dispatch(AsciiLower(words[0]), words[1..])
  {
  }

  /** A guild that does not work only answers its moderators' commands,
      and only with the apology. */
  lemma ReplyBrokenExactly(s: GuildSettings, msg: Message)
    ensures RouteSettings(s, msg) == ReplyBroken <==>
      InMusicChannel(s, msg) && StartsWith(msg.content, s.prefix) && !msg.fromBot
      && !s.operational && msg.privileged
    ensures !s.operational ==> RouteSettings(s, msg) in {Ignore, ReplyBroken}
  {
  }

  /** Nothing a bot sends is acted on. */
  lemma BotsIgnored(s: GuildSettings, msg: Message)
    requires msg.fromBot
    ensures RouteSettings(s, msg) == Ignore
  {
  }

  /** A word with no whitespace in it. */
  predicate Plain(w: string)
  {
    w != [] && forall i :: 0 <= i < |w| ==> !IsWhite(w[i])
  }

  /** The words of a line made of plain words separated by single spaces
      are those words. */
  lemma CommandWordsOfLine(prefix: string, ps: seq<string>)
    requires |ps| >= 1 && forall i :: 0 <= i < |ps| ==> Plain(ps[i])
    ensures StartsWith(prefix + JoinSpaces(ps), prefix)
    ensures CommandWords(prefix, prefix + JoinSpaces(ps)) == ps
  {
    var line := JoinSpaces(ps);
    var content := prefix + line;
    assert content[..|prefix|] == prefix;
    assert content[|prefix|..] == line;
    JoinSpacesEnds(ps);
    TrimStartIdle(line);
    TrimEndIdle(line);
    assert SpacePieces(ps) by {
      forall i | 0 <= i < |ps|
        ensures ' ' !in ps[i]
      {
        assert IsWhite(' ');
      }
    }
    SplitJoin(ps);
  }

  /** A command line typed as the prefix, a command word in any case and
      arguments separated by single spaces runs that command, lower-cased,
      with exactly those arguments. */
  lemma CommandLineDispatch(s: GuildSettings, msg: Message, word: string, args: seq<string>)
    requires InMusicChannel(s, msg) && !TakesLinks(s, msg)
    requires s.operational && !msg.fromBot
    requires Plain(word) && forall i :: 0 <= i < |args| ==> Plain(args[i])
    requires msg.content == s.prefix + JoinSpaces([word] + args)
    requires AsciiLower(word) in CommandNames
    ensures RouteSettings(s, msg) == Dispatch(AsciiLower(word), args)
  {
    var ps := [word] + args;
    assert forall i :: 0 <= i < |ps| ==> Plain(ps[i]) by {
      forall i | 0 <= i < |ps|
        ensures Plain(ps[i])
      {
        if i > 0 {
          assert ps[i] == args[i - 1];
        }
      }
    }
    CommandWordsOfLine(s.prefix, ps);
    assert ps[0] == word && ps[1..] == args;
  }

  /** `onChannelDelete` on the settings: the music channel is cleared if it
      was the deleted one, otherwise the logging channel if it was. */
  function ClearedChannel(s: GuildSettings, channelId: string): GuildSettings
  {
    if channelId == s.musicChannel then s.(musicChannel := "")
    else if channelId == s.loggingChannel then s.(loggingChannel := "")
    else s
  }

  /** A guild's settings name only channels that exist, or none. */
  predicate Live(s: GuildSettings, channels: set<string>)
  {
    (s.musicChannel == "" || s.musicChannel in channels)
    && (s.loggingChannel == "" || s.loggingChannel in channels)
  }

  /** Deleting a channel clears at most one field, preferring the music
      channel, and touches nothing else; the settings keep naming only
      live channels unless the deleted channel was both the music and the
      logging channel, when the logging channel is left naming it. */
  lemma ClearedChannelEffect(s: GuildSettings, channelId: string, channels: set<string>)
    requires Live(s, channels)
    ensures var r := ClearedChannel(s, channelId);
      && r.(musicChannel := s.musicChannel, loggingChannel := s.loggingChannel) == s
      && (r.musicChannel == s.musicChannel || r.loggingChannel == s.loggingChannel)
      && (channelId == s.musicChannel ==> r.musicChannel == "")
      && (channelId != "" && channelId == s.musicChannel && channelId == s.loggingChannel ==>
            r.loggingChannel == channelId && !Live(r, channels - {channelId}))
      && (channelId == "" || channelId != s.musicChannel || channelId != s.loggingChannel ==>
            Live(r, channels - {channelId}))
  {
  }

  /** `onChannelDelete`: text channels only. */
  method OnChannelDelete(config: Config, guild: string, channelId: string, isText: bool)
    requires isText ==> guild in config.serverList
    modifies config
    ensures !isText ==> unchanged(config)
    ensures isText ==>
      && config.validPrefixes == old(config.validPrefixes)
      && config.serverList == old(config.serverList)[guild :=
           ClearedChannel(old(config.serverList[guild]), channelId)]
  {
    if !isText {
      return;
    }
    var settings := config.serverList[guild];
    if channelId == settings.musicChannel {
      config.serverList := config.serverList[guild := settings.(musicChannel := "")];
    } else if channelId == settings.loggingChannel {
      config.serverList := config.serverList[guild := settings.(loggingChannel := "")];
    }
  }

  /** `onJoinServer`, up to the playlist request: a fresh entry with both
      cooldowns at 0, replacing any earlier entry for the guild. */
  method OnJoinServer(config: Config, guild: string)
    modifies config
    ensures config.validPrefixes == old(config.validPrefixes)
    ensures config.serverList == old(config.serverList)[guild := Defaults(Some(0))]
  {
    config.serverList := config.serverList[guild := Defaults(Some(0))];
  }

  /** The settings after the playlist request settles: its id on success;
      on failure the guild stops working. */
  function Settled(s: GuildSettings, created: Option<string>): GuildSettings
  {
    match created
    case Some(id) => s.(playlistId := id)
    case None => s.(operational := false)
  }

  /** The callbacks of `createPlaylist`, run when the request settles. */
  method OnPlaylistCreated(config: Config, guild: string, created: Option<string>)
    requires guild in config.serverList
    modifies config
    ensures config.validPrefixes == old(config.validPrefixes)
    ensures config.serverList == old(config.serverList)[guild :=
      Settled(old(config.serverList[guild]), created)]
  {
    var settings := config.serverList[guild];
    match created
    case Some(id) =>
      config.serverList := config.serverList[guild := settings.(playlistId := id)];
    case None =>
      config.serverList := config.serverList[guild := settings.(operational := false)];
  }

  /** A freshly joined guild has no music channel, so it never adds songs
      until one is set; if its playlist could not be made it only tells its
      moderators that it is broken. */
  lemma JoinedGuildRoutes(cooldowns: Option<int>, created: Option<string>, msg: Message)
    ensures !RouteSettings(Settled(Defaults(cooldowns), created), msg).AddSongs?
    ensures !RouteSettings(Defaults(cooldowns), msg).AddSongs?
    ensures created.None? ==>
      RouteSettings(Settled(Defaults(cooldowns), created), msg) in {Ignore, ReplyBroken}
    ensures created.Some? ==> Settled(Defaults(cooldowns), created).playlistId == created.value
  {
  }

  /** What handling a message did: routed only, or ran one of the commands
      that change or read the settings. */
  datatype Effect =
    | Routed(route: Route)
    | FillRan(fill: FillCommand.FillOutcome)
    | SetRan(reply: SetCommand.SetReply)
    | ResetRan(reset: ResetCommand.ResetOutcome)

  /** `parseMessage` with the command run: a dispatched `fill`, `set` or
      `reset` runs that command's `execute` on the sender's guild, with the
      sender's moderator flag and the words after the command; nothing else
      changes the settings. The `playlist` command only replies. */
  method HandleMessage(config: Config, msg: Message, now: int,
                       history: seq<FillCommand.ChatMessage>, channels: seq<SetCommand.Channel>)
    returns (effect: Effect)
    requires FillCommand.DistinctIds(history)
    modifies config
    ensures var r := ParseMessage(old(config.serverList), msg);
      !(r.Dispatch? && r.name in {"fill", "set", "reset"}) ==> effect == Routed(r) && unchanged(config)
    ensures var r := ParseMessage(old(config.serverList), msg);
      r.Dispatch? && r.name == "fill" ==>
        && effect.FillRan?
        && FillCommand.Executed(config, msg.guild, msg.privileged, r.args, now, history, effect.fill)
    ensures var r := ParseMessage(old(config.serverList), msg);
      r.Dispatch? && r.name == "set" ==>
        && effect.SetRan?
        && SetCommand.Executed(config, msg.guild, msg.privileged, r.args, channels, effect.reply)
    ensures var r := ParseMessage(old(config.serverList), msg);
      r.Dispatch? && r.name == "reset" ==>
        && effect.ResetRan?
        && ResetCommand.Executed(config, msg.guild, msg.privileged, now, effect.reset)
    ensures config.validPrefixes == old(config.validPrefixes)
    ensures config.serverList.Keys == old(config.serverList.Keys)
    ensures forall g :: g in old(config.serverList) && g != msg.guild ==>
      config.serverList[g] == old(config.serverList[g])
  {
    var route := ParseMessage(config.serverList, msg);
    if !route.Dispatch? {
      return Routed(route);
    }
    if route.name == "fill" {
      var outcome := FillCommand.Execute(config, msg.guild, msg.privileged, route.args, now, history);
      return FillRan(outcome);
    } else if route.name == "set" {
      var reply := SetCommand.Execute(config, msg.guild, msg.privileged, route.args, channels);
      return SetRan(reply);
    } else if route.name == "reset" {
      var outcome := ResetCommand.Execute(config, msg.guild, msg.privileged, now);
      return ResetRan(outcome);
    }
    return Routed(route);
  }
}
