/** The event handlers of the older entry point index.js. They do what the
    handlers of src/song-link-reader.js do, except that a joined guild's
    entry has no cooldown fields and the message handler reads the
    guild's settings without checking that there are any. */
module IndexHandlers {
  import opened Wrappers
  import opened Settings
  import opened SongLinkReader

  /** The `guildCreate` handler, up to the playlist request (which settles
      as `SongLinkReader.OnPlaylistCreated` does): a fresh entry without
      cooldown fields. */
  method OnGuildCreate(config: Config, guild: string)
    modifies config
    ensures config.validPrefixes == old(config.validPrefixes)
    ensures config.serverList == old(config.serverList)[guild := Defaults(None)]
  {
    config.serverList := config.serverList[guild := Defaults(None)];
  }

  /** An entry made here never closes the `fill` or `reset` gate before
      the command is first used: the missing field compares as NaN. */
  lemma GuildCreateGatesOpen(created: Option<string>, now: int)
    ensures !CoolingDown(Settled(Defaults(None), created).fillCooldown, now)
    ensures !CoolingDown(Settled(Defaults(None), created).resetCooldown, now)
  {
  }

  /** The outcome of the `message` handler: a TypeError thrown out of the
      handler, or the same routing as `parseMessage`. */
  datatype HandlerResult = Crash | Handled(route: Route)

  /** The `message` handler as written: `guildSettings.music_channel` is
      read with no check that the guild has settings. */
  function OnMessage(serverList: map<string, GuildSettings>, msg: Message): HandlerResult
  {
    if msg.guild !in serverList then Crash else Handled(RouteSettings(serverList[msg.guild], msg))
  }

  /** A message from a guild that has no entry yet crashes the handler,
      where `parseMessage` ignores it. */
  lemma UnregisteredGuildCrashes(serverList: map<string, GuildSettings>, msg: Message)
    requires msg.guild !in serverList
    ensures OnMessage(serverList, msg) == Crash
    ensures ParseMessage(serverList, msg) == Ignore
  {
  }

  /** For a registered guild both handlers route a message the same way. */
  lemma RegisteredAgrees(serverList: map<string, GuildSettings>, msg: Message)
    ensures OnMessage(serverList, msg).Handled? <==> msg.guild in serverList
    ensures OnMessage(serverList, msg).Handled? ==>
      OnMessage(serverList, msg).route == ParseMessage(serverList, msg)
  {
  }
}
