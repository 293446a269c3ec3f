/** The bot's configuration object: the list of prefixes a guild may pick
    and one settings record per guild (`server_list`), which the event
    handlers and the commands read and update in place. */
module Settings {
  import opened Wrappers

  /** One guild's entry of `server_list`. A cooldown is None when the
      entry has no such field (entries made by index.js). */
  datatype GuildSettings = GuildSettings(
    musicChannel: string,
    loggingChannel: string,
    playlistId: string,
    prefix: string,
    operational: bool,
    fillCooldown: Option<int>,
    resetCooldown: Option<int>)

  /** Three hours in milliseconds: the gate on `fill` and `reset`. */
  const CooldownMs: int := 10800000

  /** `cooldown + 10800000 >= now`. A missing field reads as `undefined`,
      the sum is NaN and the comparison is false, so the gate is open. */
  predicate CoolingDown(cooldown: Option<int>, now: int)
  {
    cooldown.Some? && cooldown.value + CooldownMs >= now
  }

  /** The milliseconds the refusal message asks the user to wait. */
  function WaitMs(cooldown: int, now: int): int
  {
    cooldown + CooldownMs - now
  }

  /** A command used at time `t` is refused from then on for exactly three
      hours, and the wait it reports is never negative and never more than
      three hours; a guild without the field is never refused. */
  lemma CooldownWindow(t: int, now: int)
    requires t <= now
    ensures CoolingDown(Some(t), now) <==> now <= t + CooldownMs
    ensures CoolingDown(Some(t), now) ==> 0 <= WaitMs(t, now) <= CooldownMs
    ensures !CoolingDown(None, now)
  {
  }

  /** The prefixes a new configuration lets a guild choose. */
  const DefaultPrefixes: seq<string> := ["!", "!!", ".", "..", "?", "??", "&", "&&", "+", "++"]

  /** The settings a guild starts with: no channels, no playlist, prefix
      `!`, operational; `cooldowns` is the value both cooldowns start at. */
  function Defaults(cooldowns: Option<int>): GuildSettings
  {
    GuildSettings("", "", "", "!", true, cooldowns, cooldowns)
  }

  class Config {
    /** `valid_prefixes`. */
    var validPrefixes: seq<string>
    /** `server_list`, keyed by guild id. */
    var serverList: map<string, GuildSettings>

    /** The configuration `createConfig` writes when none exists. */
    constructor ()
      ensures validPrefixes == DefaultPrefixes && serverList == map[]
    {
      validPrefixes := DefaultPrefixes;
      serverList := map[];
    }
  }
}
