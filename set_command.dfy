/** The `set` command (commands/set.js): a moderator picks the guild's
    music channel, logging channel or command prefix. */
module SetCommand {
  import opened Wrappers
  import opened JsText
  import opened Settings

  /** A channel of the guild, in the order the guild's channel collection
      yields it. */
  datatype Channel = Channel(id: string, name: string, isText: bool)

  datatype SetReply =
    | Ignored                                // the sender may not moderate
    | InvalidArgCount                        // 'Invalid number of arguments given'
    | ChannelSet(name: string, key: string)  // 'Channel <name> set as <key>'
    | InvalidChannel                         // 'Invalid channel'
    | PrefixSet(prefix: string)              // 'Prefix set to <prefix>'
    | InvalidPrefix                          // 'Invalid prefix, see help ...'
    | NotUnderstood                          // 'Unable to understand set command'

  /** A channel mention `<#X>` is reduced to X, anything else is kept;
      this is `slice(2, -1)` on an argument that starts with `<#` and ends
      with `>`. */
  function StripMention(arg: string): (r: string)
    ensures StartsWith(arg, "<#") && EndsWith(arg, ">") ==> "<#" + r + ">" == arg
    ensures !(StartsWith(arg, "<#") && EndsWith(arg, ">")) ==> r == arg
  {
    if StartsWith(arg, "<#") && EndsWith(arg, ">") then
      assert arg[1] == '#' && arg[|arg| - 1] == '>';
      arg[2..|arg| - 1]
    else arg
  }

  /** The mention of a channel gives back the channel's id or name. */
  lemma StripMentionRoundTrip(x: string)
    ensures StripMention("<#" + x + ">") == x
  {
    var arg := "<#" + x + ">";
    assert arg[..2] == "<#";
    assert arg[|arg| - 1..] == ">";
    assert arg[2..|arg| - 1] == x;
  }

  /** The channel the argument names: a text channel whose id or name is
      the argument. */
  predicate Names(c: Channel, arg: string)
  {
    c.isText && (c.id == arg || c.name == arg)
  }

  /** The channel loop of `execute`: the position of the first channel, in
      iteration order, that the argument names. */
  method FindTextChannel(channels: seq<Channel>, arg: string) returns (r: Option<nat>)
    ensures r == FirstNamed(channels, arg)
  {
    for i := 0 to |channels|
      invariant forall j :: 0 <= j < i ==> !Names(channels[j], arg)
    {
      var channel := channels[i];
      if channel.isText && (channel.id == arg || channel.name == arg) {
        FirstNamedUnique(channels, arg, Some(i));
        return Some(i);
      }
    }
    FirstNamedUnique(channels, arg, None);
    return None;
  }

  /** The reference for the channel loop: the first channel the argument
      names. */
  function FirstNamed(channels: seq<Channel>, arg: string): (r: Option<nat>)
    ensures r.Some? ==> r.value < |channels| && Names(channels[r.value], arg)
    ensures r.Some? ==> forall j :: 0 <= j < r.value ==> !Names(channels[j], arg)
    ensures r.None? ==> forall j :: 0 <= j < |channels| ==> !Names(channels[j], arg)
  {
    if channels == [] then None
    else if Names(channels[0], arg) then Some(0)
    else
      match FirstNamed(channels[1..], arg)
      case None => None
      case Some(k) => Some(k + 1)
  }

  /** The prefix loop of `execute`: the prefix is one of the valid ones. */
  method IsValidPrefix(prefixes: seq<string>, p: string) returns (b: bool)
    ensures b <==> p in prefixes
  {
    for i := 0 to |prefixes|
      invariant p !in prefixes[..i]
    {
      if p == prefixes[i] {
        return true;
      }
      assert prefixes[..i + 1] == prefixes[..i] + [prefixes[i]];
    }
    assert prefixes[..|prefixes|] == prefixes;
    return false;
  }

  /** What `execute` answers and does to the configuration: only the
      field the first argument names changes, and only when the second
      argument is acceptable. */
  twostate predicate Executed(config: Config, guild: string, moderator: bool, args: seq<string>,
                              channels: seq<Channel>, reply: SetReply)
    requires moderator ==> old(guild in config.serverList)
    reads config
  {
    && config.validPrefixes == old(config.validPrefixes)
    && (!moderator ==> reply == Ignored && unchanged(config))
    && (moderator && |args| != 2 ==> reply == InvalidArgCount && unchanged(config))
    && (moderator && |args| == 2 && (args[0] == "music_channel" || args[0] == "logging_channel") ==>
          match FirstNamed(channels, StripMention(args[1]))
          case None => reply == InvalidChannel && unchanged(config)
          case Some(k) =>
            && reply == ChannelSet(channels[k].name, args[0])
            && config.serverList == old(config.serverList)[guild :=
                 if args[0] == "music_channel"
                 then old(config.serverList[guild]).(musicChannel := channels[k].id)
                 else old(config.serverList[guild]).(loggingChannel := channels[k].id)])
    && (moderator && |args| == 2 && args[0] == "prefix" ==>
          if args[1] in old(config.validPrefixes) then
            && reply == PrefixSet(args[1])
            && config.serverList == old(config.serverList)[guild :=
                 old(config.serverList[guild]).(prefix := args[1])]
          else reply == InvalidPrefix && unchanged(config))
    && (moderator && |args| == 2 && args[0] !in {"music_channel", "logging_channel", "prefix"} ==>
          reply == NotUnderstood && unchanged(config))
  }

  /** `execute`. */
  method Execute(config: Config, guild: string, moderator: bool, args: seq<string>,
                 channels: seq<Channel>)
    returns (reply: SetReply)
    requires moderator ==> guild in config.serverList
    modifies config
    ensures Executed(config, guild, moderator, args, channels, reply)
  {
    if !moderator {
      return Ignored;
    }
    if |args| != 2 {
      return InvalidArgCount;
    }
    if args[0] == "music_channel" || args[0] == "logging_channel" {
      var target := StripMention(args[1]);
      var found := FindTextChannel(channels, target);
      if found.None? {
        return InvalidChannel;
      }
      var channel := channels[found.value];
      var settings := config.serverList[guild];
      if args[0] == "music_channel" {
        config.serverList := config.serverList[guild := settings.(musicChannel := channel.id)];
      } else {
        config.serverList := config.serverList[guild := settings.(loggingChannel := channel.id)];
      }
      return ChannelSet(channel.name, args[0]);
    } else if args[0] == "prefix" {
      var valid := IsValidPrefix(config.validPrefixes, args[1]);
      if valid {
        config.serverList := config.serverList[guild := config.serverList[guild].(prefix := args[1])];
        return PrefixSet(args[1]);
      }
      return InvalidPrefix;
    }
    return NotUnderstood;
  }

  /** Any position with the first-match property is the one `FirstNamed`
      gives. */
  lemma FirstNamedUnique(channels: seq<Channel>, arg: string, r: Option<nat>)
    requires r.Some? ==> r.value < |channels| && Names(channels[r.value], arg)
    requires r.Some? ==> forall j :: 0 <= j < r.value ==> !Names(channels[j], arg)
    requires r.None? ==> forall j :: 0 <= j < |channels| ==> !Names(channels[j], arg)
    ensures r == FirstNamed(channels, arg)
  {
  }
}
