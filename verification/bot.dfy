/** The decision logic of the four event handlers of `bot/bot.go`. Each handler
    is a pure function from the guild store, the inbound event, the helpers it
    calls (`Env`) and the answers of its foreign calls (`Answers`) to the
    effects it has, in order. Failed sends and reactions are not inputs: the
    handlers only log them, and what they attempt afterwards does not depend
    on them. */
module Bot {
  import opened Wrappers
  import opened Text
  import opened Discord

  const PingKeyword: string := "ping"
  const PrefixKeyword: string := "prefix"
  const SetBotChannelKeyword: string := "setbotchannel"

  /** Platform channel IDs have at least this many bytes. */
  const MinChannelIdLength: nat := 18

  /** The gates every message handler passes before looking at the command:
      the guild's record is found, the message starts with its prefix, the
      author is not the bot itself, and `checkAllowedChannel` admits the
      channel. `pingMessageHandler` tests the channel before the prefix, the
      other two test them in the order listed; each failing gate returns
      silently, so the order is not observable. */
  predicate Admitted(store: Store, m: Message, env: Env)
  {
    && m.guildId in store
    && store[m.guildId].prefix <= m.content
    && m.authorId != env.selfId
    && env.channelAllowed(m.channelId, store[m.guildId])
  }

  /** The message names `keyword` right after the guild's prefix, anywhere in
      its content (`strings.Contains`, not a match at the start). */
  predicate Invokes(store: Store, m: Message, keyword: string)
    requires m.guildId in store
  {
    Contains(m.content, store[m.guildId].prefix + keyword)
  }

  /** `pingMessageHandler`: an exact `<prefix>ping` gets a green "pong!" and a
      ping-pong reaction; nothing else gets anything. */
  function PingMessage(store: Store, m: Message, env: Env): (r: seq<Effect>)
    ensures !Admitted(store, m, env) ==> r == []
    ensures r != [] <==> Admitted(store, m, env) && m.content == store[m.guildId].prefix + PingKeyword
    ensures r == [] || r == [Reply(Green, PongText), Reaction(PingEmoji)]
    ensures NoUpsert(r)
  {
    if m.guildId !in store then []
    else
      var guild := store[m.guildId];
      if !env.channelAllowed(m.channelId, guild) then []
      else if !(guild.prefix <= m.content) then []
      else if m.authorId == env.selfId then []
      else if m.content == guild.prefix + PingKeyword then
        [Reply(Green, PongText), Reaction(PingEmoji)]
      else []
  }

  /** Tail shared by both mutating commands: attempt the write, and when it
      succeeds and the record can be read back, confirm from what was read. */
  function Persist(settings: GuildSettings, ans: Answers, confirm: GuildSettings -> seq<Effect>): (r: seq<Effect>)
    ensures |r| >= 1 && r[0] == Upsert(settings)
    ensures !ans.upsertOk || ans.reread.None? ==> r == [Upsert(settings)]
    ensures ans.upsertOk && ans.reread.Some? ==> r[1..] == confirm(ans.reread.value)
  {
    [Upsert(settings)] +
      if !ans.upsertOk then []
      else match ans.reread
        case None => []
        case Some(stored) => confirm(stored)
  }

  /** The prefix command once recognised (after the gates and the keyword
      test): one argument shows the stored prefix to anyone; otherwise an
      administrator may replace it, subject to `checkPrefix`. */
  function PrefixCommand(guild: GuildSettings, m: Message, parameter: seq<string>,
                         accepted: string -> bool, ans: Answers): (r: seq<Effect>)
    // Showing the prefix consults neither the permission oracle nor the store writer.
    ensures |parameter| == 1 ==> r == [Reply(Green, ShowPrefixText(guild.prefix))]
    ensures |parameter| != 1 && ans.permission != Some(true) ==> r == []
    ensures |parameter| >= 2 && ans.permission == Some(true) && !accepted(parameter[1]) ==>
              r == [Reply(Red, PrefixTooLongText)]
    ensures !NoUpsert(r) <==>
              |parameter| >= 2 && ans.permission == Some(true) && accepted(parameter[1]) && ans.sessionGuild.Some?
    // A failed `s.Guild` after an accepted prefix is silent.
    ensures |parameter| >= 2 && ans.permission == Some(true) && accepted(parameter[1]) && ans.sessionGuild.None? ==>
              r == []
    // A failed write or re-read ends the command with the write alone.
    ensures !NoUpsert(r) && (!ans.upsertOk || ans.reread.None?) ==> |r| == 1
    ensures AtMostOneUpsert(r)
    ensures forall e | e in r && e.Upsert? ::
              && |parameter| >= 2
              && ans.sessionGuild.Some?
              && e.settings == GuildSettings(m.guildId, ans.sessionGuild.value.name, parameter[1], [])
    ensures Panic in r <==> |parameter| == 0 && ans.permission == Some(true)
    // An administrator's command with an empty argument list panics and does nothing else.
    ensures |parameter| == 0 && ans.permission == Some(true) ==> r == [Panic]
    // The confirmation reports the prefix read back from the store, not the one written.
    ensures !NoUpsert(r) && ans.upsertOk && ans.reread.Some? ==>
              r == [r[0], Reply(Green, PrefixUpdatedText(ans.reread.value.prefix))]
  {
    if |parameter| == 1 then [Reply(Green, ShowPrefixText(guild.prefix))]
    else if ans.permission != Some(true) then []
    else if |parameter| == 0 then [Panic]
    else
      var prefix := parameter[1];
      if !accepted(prefix) then [Reply(Red, PrefixTooLongText)]
      else match ans.sessionGuild
        case None => []
        case Some(live) =>
          Persist(GuildSettings(m.guildId, live.name, prefix, []), ans,
                  (stored: GuildSettings) => [Reply(Green, PrefixUpdatedText(stored.prefix))])
  }

  /** `setPrefixHandler`: nothing happens unless the message passes the gates
      and names the prefix command; the command then runs on the arguments. */
  function SetPrefix(store: Store, m: Message, env: Env, ans: Answers): (r: seq<Effect>)
    ensures !Admitted(store, m, env) ==> r == []
    ensures Admitted(store, m, env) && !Invokes(store, m, PrefixKeyword) ==> r == []
    ensures Admitted(store, m, env) && Invokes(store, m, PrefixKeyword) && |env.arguments(m.content)| == 1 ==>
              r == [Reply(Green, ShowPrefixText(store[m.guildId].prefix))]
    ensures |env.arguments(m.content)| != 1 && ans.permission != Some(true) ==> r == []
    ensures Admitted(store, m, env) && Invokes(store, m, PrefixKeyword) ==>
              r == PrefixCommand(store[m.guildId], m, env.arguments(m.content), env.prefixAccepted, ans)
    // Whatever the store held, a written record carries the requested prefix.
    ensures forall e | e in r && e.Upsert? ::
              && |env.arguments(m.content)| >= 2
              && e.settings.guildId == m.guildId
              && e.settings.prefix == env.arguments(m.content)[1]
              && env.prefixAccepted(e.settings.prefix)
              && ans.permission == Some(true)
  {
    if m.guildId !in store then []
    else
      var guild := store[m.guildId];
      if !(guild.prefix <= m.content) then []
      else if m.authorId == env.selfId then []
      else if !env.channelAllowed(m.channelId, guild) then []
      else if !Contains(m.content, guild.prefix + PrefixKeyword) then []
      else PrefixCommand(guild, m, env.arguments(m.content), env.prefixAccepted, ans)
  }

  predicate TooShort(token: string)
  {
    ByteLength(token) < MinChannelIdLength
  }

  /** The position of the first token that cannot be a channel ID, if any. */
  function FirstTooShort(tokens: seq<string>): (r: Option<nat>)
    ensures r.Some? ==> r.value < |tokens| && TooShort(tokens[r.value])
    ensures r.Some? ==> forall j :: 0 <= j < r.value ==> !TooShort(tokens[j])
    ensures r.None? <==> forall j :: 0 <= j < |tokens| ==> !TooShort(tokens[j])
  {
    if tokens == [] then None
    else if TooShort(tokens[0]) then Some(0)
    else match FirstTooShort(tokens[1..])
      case None => None
      case Some(k) => Some(k + 1)
  }

  /** The single-channel shortcut: the current channel becomes the only bot
      channel, confirmed with the first channel read back. */
  function OnlyThisChannel(guild: GuildSettings, m: Message, ans: Answers): (r: seq<Effect>)
    ensures |r| >= 1 && r[0] == Upsert(GuildSettings(m.guildId, guild.guildName, guild.prefix, [m.channelId]))
    ensures AtMostOneUpsert(r)
    ensures Panic in r <==> ans.upsertOk && ans.reread.Some? && ans.reread.value.botChannels == []
    // A failed write or re-read ends the command with the write alone.
    ensures !ans.upsertOk || ans.reread.None? ==> |r| == 1
    // The confirmation names the first channel read back from the store.
    ensures ans.upsertOk && ans.reread.Some? && ans.reread.value.botChannels != [] ==>
              r[1..] == [Reply(Green, ChannelSetText(ans.reread.value.botChannels[0]))]
    ensures ans.upsertOk && ans.reread.Some? && ans.reread.value.botChannels == [] ==> r[1..] == [Panic]
  {
    Persist(GuildSettings(m.guildId, guild.guildName, guild.prefix, [m.channelId]), ans,
            (stored: GuildSettings) => if |stored.botChannels| == 0 then [Panic]
                                       else [Reply(Green, ChannelSetText(stored.botChannels[0]))])
  }

  /** The explicit form: the tokens become the bot channels, in order and
      replacing the old list, provided every one is long enough to be a
      channel ID; otherwise the first offender is reported and nothing is
      written. */
  function ListedChannels(guild: GuildSettings, m: Message, tokens: seq<string>, ans: Answers): (r: seq<Effect>)
    ensures FirstTooShort(tokens).Some? ==>
              r == [Reply(Red, BadChannelIdText(tokens[FirstTooShort(tokens).value]))]
    ensures FirstTooShort(tokens).None? ==>
              |r| >= 1 && r[0] == Upsert(GuildSettings(m.guildId, guild.guildName, guild.prefix, tokens))
    ensures forall e | e in r && e.Upsert? :: forall i | 0 <= i < |tokens| :: !TooShort(tokens[i])
    ensures AtMostOneUpsert(r)
    ensures Panic !in r
    // A failed write or re-read ends the command with the write alone.
    ensures !NoUpsert(r) && (!ans.upsertOk || ans.reread.None?) ==> |r| == 1
    // The confirmation lists the channels read back from the store, not the ones written.
    ensures !NoUpsert(r) && ans.upsertOk && ans.reread.Some? ==>
              r == [r[0], Reply(Green, ChannelsSetText(Join(ans.reread.value.botChannels, ",")))]
  {
    match FirstTooShort(tokens)
    case Some(k) => [Reply(Red, BadChannelIdText(tokens[k]))]
    case None =>
      Persist(GuildSettings(m.guildId, guild.guildName, guild.prefix, tokens), ans,
              (stored: GuildSettings) => [Reply(Green, ChannelsSetText(Join(stored.botChannels, ",")))])
  }

  /** The setbotchannel command once recognised: only an administrator may
      run it; with no channel arguments it keeps to the current channel,
      otherwise it takes the listed channels. */
  function BotChannelCommand(guild: GuildSettings, m: Message, parameter: seq<string>, ans: Answers): (r: seq<Effect>)
    ensures ans.permission != Some(true) ==> r == []
    ensures ans.permission == Some(true) && |parameter| == 1 ==> r == OnlyThisChannel(guild, m, ans)
    ensures ans.permission == Some(true) && |parameter| >= 2 ==> r == ListedChannels(guild, m, parameter[1..], ans)
    ensures ans.permission == Some(true) && |parameter| == 0 ==> r == [Panic]
    // All or nothing, and name and prefix carried over from the loaded record.
    ensures forall e | e in r && e.Upsert? ::
              && e.settings.guildId == m.guildId
              && e.settings.guildName == guild.guildName
              && e.settings.prefix == guild.prefix
              && forall i | 1 <= i < |parameter| :: !TooShort(parameter[i])
    ensures AtMostOneUpsert(r)
  {
    if ans.permission != Some(true) then []
    else if |parameter| == 1 then OnlyThisChannel(guild, m, ans)
    else if |parameter| == 0 then [Panic]
    else
      var tokens := parameter[1..];
      assert forall i | 1 <= i < |parameter| :: parameter[i] == tokens[i - 1];
      ListedChannels(guild, m, tokens, ans)
  }

  /** `setBotChannelHandler`: nothing happens unless the message passes the
      gates and names the setbotchannel command; the command then runs on the
      arguments. */
  function SetBotChannel(store: Store, m: Message, env: Env, ans: Answers): (r: seq<Effect>)
    ensures !Admitted(store, m, env) ==> r == []
    ensures Admitted(store, m, env) && !Invokes(store, m, SetBotChannelKeyword) ==> r == []
    ensures ans.permission != Some(true) ==> r == []
    ensures Admitted(store, m, env) && Invokes(store, m, SetBotChannelKeyword) ==>
              r == BotChannelCommand(store[m.guildId], m, env.arguments(m.content), ans)
    // A written record keeps the loaded name and prefix and holds only valid IDs.
    ensures forall e | e in r && e.Upsert? ::
              && m.guildId in store
              && e.settings.guildId == m.guildId
              && e.settings.guildName == store[m.guildId].guildName
              && e.settings.prefix == store[m.guildId].prefix
              && forall id | id in e.settings.botChannels :: id == m.channelId || !TooShort(id)
  {
    if m.guildId !in store then []
    else
      var guild := store[m.guildId];
      if !(guild.prefix <= m.content) then []
      else if m.authorId == env.selfId then []
      else if !env.channelAllowed(m.channelId, guild) then []
      else
        var parameter := env.arguments(m.content);
        if !Contains(m.content, guild.prefix + SetBotChannelKeyword) then []
        else BotChannelCommand(guild, m, parameter, ans)
  }

  /** The IDs of `channels`, in order. */
  function ChannelIds(channels: seq<Channel>): (ids: seq<string>)
    ensures |ids| == |channels|
    ensures forall i :: 0 <= i < |channels| ==> ids[i] == channels[i].id
  {
    if channels == [] then [] else [channels[0].id] + ChannelIds(channels[1..])
  }

  /** `guildJoinInit`: on joining a guild, create its record with the default
      prefix and every channel as a bot channel when looking the guild up in
      the store fails. The lookup fails when the guild has no record, and also
      when the store reports an error (`lookupError`): any error is taken to
      mean "not found", so an error on a guild that has a record overwrites it
      with the defaults. */
  function GuildJoinInit(store: Store, g: GuildCreate, env: Env, live: Option<SessionGuild>,
                         lookupError: bool): (r: seq<Effect>)
    ensures r != [] <==> live.Some? && (live.value.id !in store || lookupError)
    ensures r != [] ==>
              r == [Upsert(GuildSettings(live.value.id, live.value.name, env.defaultPrefix, ChannelIds(g.channels)))]
    ensures forall e | e in r && e.Upsert? ::
              && (e.settings.guildId !in store || lookupError)
              && e.settings.prefix == env.defaultPrefix
              && |e.settings.botChannels| == |g.channels|
              && forall i | 0 <= i < |g.channels| :: e.settings.botChannels[i] == g.channels[i].id
  {
    match live
    case None => []
    case Some(guild) =>
      var ids := ChannelIds(g.channels);
      if guild.id in store && !lookupError then []
      else [Upsert(GuildSettings(guild.id, guild.name, env.defaultPrefix, ids))]
  }
}
