/** Properties that relate several handler runs to one another: which handlers
    can answer the same message, and what a second event sees after a first
    one's write. */
module Properties {
  import opened Wrappers
  import opened Text
  import opened Discord
  import opened Bot

  /** A message that gets a pong is never also a prefix or setbotchannel
      command: `<prefix>ping` is too short to contain either keyword after the
      prefix. */
  lemma PingExcludesAdminCommands(store: Store, m: Message, env: Env, ans: Answers)
    requires PingMessage(store, m, env) != []
    ensures SetPrefix(store, m, env, ans) == []
    ensures SetBotChannel(store, m, env, ans) == []
  {
    var prefix := store[m.guildId].prefix;
    NotContainsLonger(m.content, prefix + PrefixKeyword);
    NotContainsLonger(m.content, prefix + SetBotChannelKeyword);
  }

  /** The admin keywords are found anywhere in the message, not only right
      after a leading prefix: with prefix `!`, both `!say !prefix` and
      `!prefixes` are recognised as the prefix command, whatever their
      arguments. */
  lemma KeywordMatchedAnywhere(store: Store, m: Message, env: Env, ans: Answers)
    requires m.guildId in store && store[m.guildId].prefix == "!"
    requires m.content == "!say !prefix" || m.content == "!prefixes"
    requires m.authorId != env.selfId && env.channelAllowed(m.channelId, store[m.guildId])
    ensures SetPrefix(store, m, env, ans) ==
              PrefixCommand(store[m.guildId], m, env.arguments(m.content), env.prefixAccepted, ans)
  {
    if m.content == "!say !prefix" {
      assert OccursAt(m.content, "!" + PrefixKeyword, 5);
      ContainsIffOccurs(m.content, "!" + PrefixKeyword);
    } else {
      ContainsPrefix(m.content, "!" + PrefixKeyword);
    }
  }

  /** Split on whitespace, `!say !prefix` is two tokens, so for an
      administrator it is a prefix change: the prefix becomes `!prefix` when
      `checkPrefix` accepts it. */
  lemma KeywordInsideSentenceChangesPrefix(store: Store, m: Message, env: Env, ans: Answers)
    requires m.guildId in store && store[m.guildId].prefix == "!"
    requires m.content == "!say !prefix"
    requires m.authorId != env.selfId && env.channelAllowed(m.channelId, store[m.guildId])
    requires env.arguments(m.content) == ["!say", "!prefix"]
    requires ans.permission == Some(true) && env.prefixAccepted("!prefix") && ans.sessionGuild.Some?
    ensures var r := SetPrefix(store, m, env, ans);
            |r| >= 1 && r[0] == Upsert(GuildSettings(m.guildId, ans.sessionGuild.value.name, "!prefix", []))
  {
    KeywordMatchedAnywhere(store, m, env, ans);
  }

  /** Showing the prefix depends on no foreign call: any answers give the same
      effects. */
  lemma ShowPrefixIgnoresAnswers(store: Store, m: Message, env: Env, ans1: Answers, ans2: Answers)
    requires |env.arguments(m.content)| == 1
    ensures SetPrefix(store, m, env, ans1) == SetPrefix(store, m, env, ans2)
  {
  }

  /** After a prefix change is written and the store holds the new prefix,
      `<new prefix>prefix` shows the new prefix. */
  lemma SetPrefixRoundTrip(store: Store, m: Message, env: Env, ans: Answers, u: GuildSettings,
                           store': Store, m': Message, ans': Answers)
    requires Upsert(u) in SetPrefix(store, m, env, ans)
    requires m'.guildId in store' && store'[m'.guildId].prefix == u.prefix
    requires m'.content == u.prefix + PrefixKeyword
    requires m'.authorId != env.selfId && env.channelAllowed(m'.channelId, store'[m'.guildId])
    requires |env.arguments(m'.content)| == 1
    ensures SetPrefix(store', m', env, ans') == [Reply(Green, ShowPrefixText(env.arguments(m.content)[1]))]
  {
  }

  /** Re-issuing a prefix change writes the same record: what is written
      depends on the guild, the requested prefix and the live guild name, not
      on the record the store held, nor on whether an earlier attempt's write
      or re-read failed. */
  lemma SetPrefixWriteIgnoresStoredRecord(store1: Store, m1: Message, store2: Store, m2: Message,
                                          env: Env, ans1: Answers, ans2: Answers,
                                          u1: GuildSettings, u2: GuildSettings)
    requires Upsert(u1) in SetPrefix(store1, m1, env, ans1)
    requires Upsert(u2) in SetPrefix(store2, m2, env, ans2)
    requires m1.guildId == m2.guildId
    requires env.arguments(m1.content)[1] == env.arguments(m2.content)[1]
    requires ans1.sessionGuild.Some? && ans2.sessionGuild.Some? ==>
               ans1.sessionGuild.value.name == ans2.sessionGuild.value.name
    ensures u1 == u2
  {
  }

  /** Re-issuing the same setbotchannel command once its record is stored
      writes the same record again and gives the same reply: the new list
      replaces the old one instead of being merged into it. */
  lemma SetBotChannelIdempotent(store: Store, m: Message, env: Env, ans: Answers, u: GuildSettings)
    requires Upsert(u) in SetBotChannel(store, m, env, ans)
    requires env.channelAllowed(m.channelId, u)
    ensures SetBotChannel(store[m.guildId := u], m, env, ans) == SetBotChannel(store, m, env, ans)
  {
  }

  /** A guild is initialised once: once the record a join wrote is stored,
      no later join for that guild writes again unless its store lookup
      errs, whatever the session then answers. */
  lemma JoinInitOnce(store: Store, g: GuildCreate, env: Env, live: Option<SessionGuild>, lookupError: bool,
                     u: GuildSettings, g': GuildCreate, live': Option<SessionGuild>)
    requires Upsert(u) in GuildJoinInit(store, g, env, live, lookupError)
    requires live'.Some? ==> live'.value.id == u.guildId
    ensures GuildJoinInit(store[u.guildId := u], g', env, live', false) == []
  {
  }

  /** A store error during a join overwrites an existing record with the
      defaults: the guild's prefix and bot channels are reset. */
  lemma JoinLookupErrorResetsRecord(store: Store, g: GuildCreate, env: Env, live: Option<SessionGuild>)
    requires live.Some? && live.value.id in store
    ensures GuildJoinInit(store, g, env, live, true) ==
              [Upsert(GuildSettings(live.value.id, live.value.name, env.defaultPrefix, ChannelIds(g.channels)))]
  {
  }
}
