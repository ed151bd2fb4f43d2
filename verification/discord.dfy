/** The records and events the handlers exchange with the chat platform and the
    guild store, and the effects a handler can have on the outside world. */
module Discord {
  import opened Wrappers

  /** The stored per-guild configuration (`model.GuildSettings`), without its
      timestamp. */
  datatype GuildSettings = GuildSettings(
    guildId: string,
    guildName: string,
    prefix: string,
    botChannels: seq<string>)

  /** The guild store as an abstract map keyed by guild ID; a key that is absent
      is a failed `FindGuildByID`. */
  type Store = map<string, GuildSettings>

  /** An inbound `MessageCreate` event. */
  datatype Message = Message(
    guildId: string,
    channelId: string,
    authorId: string,
    content: string)

  datatype Channel = Channel(id: string, name: string)

  /** An inbound `GuildCreate` event: the guild joined and its channels, in order. */
  datatype GuildCreate = GuildCreate(id: string, channels: seq<Channel>)

  /** What the session answers about a guild (`s.Guild`). */
  datatype SessionGuild = SessionGuild(id: string, name: string)

  /** Embed colours used for replies. */
  const Red: int := 0xff0000
  const Green: int := 0x11ff00

  const PingEmoji: string := "\U{1F3D3}"

  /** What a handler does to the outside world, in order:
      an embed reply in the message's channel, a reaction on the message, an
      insert-or-update of a guild record, or a Go runtime panic (an index out
      of range or a slice out of bounds), which ends the process. */
  datatype Effect =
    | Reply(color: int, text: string)
    | Reaction(emoji: string)
    | Upsert(settings: GuildSettings)
    | Panic

  /** Code the handlers call but whose definitions are not part of this model,
      as uninterpreted functions, together with process configuration. */
  datatype Env = Env(
    selfId: string,                                    // s.State.User.ID
    defaultPrefix: string,                             // config.BotPrefix
    channelAllowed: (string, GuildSettings) -> bool,   // checkAllowedChannel
    arguments: string -> seq<string>,                  // getArguments
    prefixAccepted: string -> bool)                    // checkPrefix

  /** The answers of the foreign calls one message event may make. */
  datatype Answers = Answers(
    permission: Option<bool>,           // memberHasPermission; None when it errs
    sessionGuild: Option<SessionGuild>, // s.Guild(m.GuildID); None when it errs
    upsertOk: bool,                     // InsertOrUpdateGuild returned no error
    reread: Option<GuildSettings>)      // FindGuildByID after the write


  /** No effect of `r` writes to the store. */
  predicate NoUpsert(r: seq<Effect>)
  {
    forall e | e in r :: !e.Upsert?
  }

  /** No effect of `r` sends a reply. */
  predicate NoReply(r: seq<Effect>)
  {
    forall e | e in r :: !e.Reply?
  }

  /** `r` writes to the store at most once. */
  predicate AtMostOneUpsert(r: seq<Effect>)
  {
    forall i, j | 0 <= i < j < |r| :: !(r[i].Upsert? && r[j].Upsert?)
  }

  /** Every record `r` writes satisfies `p`. */
  predicate AllUpserts(r: seq<Effect>, p: GuildSettings -> bool)
  {
    forall e | e in r && e.Upsert? :: p(e.settings)
  }

  // Reply texts.

  const PongText: string := "pong!"

  function ShowPrefixText(prefix: string): string
  {
    "The prefix for this server is `" + prefix + "`."
  }

  function PrefixUpdatedText(prefix: string): string
  {
    "Updated successfully prefix now set to `" + prefix + "`"
  }

  const PrefixTooLongText: string := "The chosen prefix is too long."

  function ChannelSetText(channelId: string): string
  {
    "Updated successfully this channel is set to take bot commands; channel ID: `" + channelId + "`"
  }

  function BadChannelIdText(token: string): string
  {
    "Make sure the channel ID is correct potential issue with: `" + token + "`" + " Aborting bot channel update"
  }

  function ChannelsSetText(joined: string): string
  {
    "Updated successfully the channel IDs: \n`" + joined + "` \nnow take bot commands."
  }
}
