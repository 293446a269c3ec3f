/** The `reset` command (commands/reset.js): a moderator asks the bot to
    empty the guild's playlist, at most once every three hours. */
module ResetCommand {
  import opened Wrappers
  import opened Settings

  datatype ResetOutcome =
    | Ignored                      // the sender may not moderate
    | Refused(waitMs: int)         // the three-hour gate is closed
    | Clearing(playlistId: string) // `clearPlaylist` is started on this playlist

  /** What `execute` answers and does to the configuration: past the
      gate the clear of the guild's own playlist starts and the gate closes
      at once, whether or not the clear succeeds; otherwise nothing
      changes. */
  twostate predicate Executed(config: Config, guild: string, moderator: bool, now: int,
                              outcome: ResetOutcome)
    requires moderator ==> old(guild in config.serverList)
    reads config
  {
    && (!moderator ==> outcome == Ignored && unchanged(config))
    && (moderator && CoolingDown(old(config.serverList[guild].resetCooldown), now) ==>
          outcome == Refused(WaitMs(old(config.serverList[guild].resetCooldown.value), now))
          && unchanged(config))
    && (moderator && !CoolingDown(old(config.serverList[guild].resetCooldown), now) ==>
          && outcome == Clearing(old(config.serverList[guild].playlistId))
          && config.validPrefixes == old(config.validPrefixes)
          && config.serverList == old(config.serverList)[guild :=
               old(config.serverList[guild]).(resetCooldown := Some(now))])
  }

  /** `execute`. */
  method Execute(config: Config, guild: string, moderator: bool, now: int)
    returns (outcome: ResetOutcome)
    requires moderator ==> guild in config.serverList
    modifies config
    ensures Executed(config, guild, moderator, now, outcome)
  {
    if !moderator {
      return Ignored;
    }
    var guildSettings := config.serverList[guild];
    if CoolingDown(guildSettings.resetCooldown, now) {
      return Refused(WaitMs(guildSettings.resetCooldown.value, now));
    }
    outcome := Clearing(config.serverList[guild].playlistId);
    config.serverList := config.serverList[guild := guildSettings.(resetCooldown := Some(now))];
  }
}
