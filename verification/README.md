# GinDiscordBot message handlers, modelled in Dafny

This project models the decision logic of the four Discord event handlers of
GinDiscordBot (`bot/bot.go`): `guildJoinInit`, `pingMessageHandler`,
`setPrefixHandler` and `setBotChannelHandler`. Each handler is a pure function
from

- the guild store, an abstract map from guild ID to `GuildSettings`. For the
  message handlers a missing key stands for any failed `FindGuildByID`, since
  every failure there is silent. The join handler also takes a separate
  `lookupError` flag for a store error on a guild that has a record,
- the inbound event (`Message` or `GuildCreate`),
- an `Env` holding the helpers the handlers call but that are not part of this
  model (`checkAllowedChannel`, `getArguments`, `checkPrefix`) as uninterpreted
  functions, plus the bot's own user ID and `config.BotPrefix`,
- the answers of the foreign calls one event may make (`Answers`: the
  permission check, `s.Guild`, whether the upsert failed, and what the store
  returns when the record is read back),

to the sequence of effects it has: `Reply(color, text)` in the message's
channel, `Reaction(emoji)` on the message, `Upsert(GuildSettings)` to the
store, and `Panic` for a Go index or slice-bounds panic, which ends the process.

Files:

- `wrappers.dfy` — `Option`.
- `text.dfy` — Go's `strings.Contains`, `strings.Join` and `len` on strings
  (UTF-8 bytes, not characters); `strings.HasPrefix` is Dafny's `<=` on
  sequences.
- `discord.dfy` — records, events, effects, colours (`0xff0000`, `0x11ff00`)
  and reply texts.
- `bot.dfy` — the four handlers.
- `properties.dfy` — lemmas relating several handler runs.

Points in the code's behaviour that are easy to miss:

- The `prefix` and `setbotchannel` commands are recognised by
  `strings.Contains(content, prefix + keyword)` anywhere in the message, while
  `ping` needs the whole content to equal `prefix + "ping"`.
- The gates are record found, prefix at the start, author not the bot, and
  channel admitted. `setPrefixHandler` and `setBotChannelHandler` test them in
  that order. `pingMessageHandler` tests the channel before the prefix. Each
  failing gate returns silently, so the order is not observable, and one
  predicate `Bot.Admitted` covers all three handlers.
- A failed reply send does not stop the ping handler from adding its reaction.
- The record `setPrefixHandler` upserts carries the live guild name from
  `s.Guild` and an empty channel list. The record `setBotChannelHandler`
  upserts carries the name and prefix of the loaded record.
- The channel-ID check `len(ids) < 18` counts bytes, so it is modelled on the
  UTF-8 length of the token.
- Three operations are modelled as `Panic`. The first is `parameter[1]` in
  the prefix command when `getArguments` returns an empty list. The second is
  `parameter[1:]` in the setbotchannel command in the same case. The third is
  `GuildBotChannelsID[0]` on an empty list read back in the setbotchannel
  command.
- Re-running a setbotchannel command repeats its effects only if
  `checkAllowedChannel` still admits the command's channel under the new list.
  If the list written does not include that channel, the channel may stop
  accepting commands.
- Confirmation replies are built from the record read back after the write,
  not from the record written. A failed write or re-read ends the command
  silently after the write.
- `guildJoinInit` treats every error from `FindGuildByID` as "not found". A
  store error on a guild that already has a record therefore resets its
  prefix and bot channels to the defaults.

## Model

| member | source | states |
|---|---|---|
| Bot.PingMessage | bot/bot.go:100-133 | The handler acts exactly when the record is found, the channel is admitted, the author is not the bot and the content equals prefix + "ping". It then sends a green "pong!" and the ping-pong reaction, and it never writes to the store. |
| Bot.PrefixCommand | bot/bot.go:153-227 | With exactly one argument, anyone gets a green reply naming the stored prefix. Otherwise an error or a refusal from the permission check gives no effect at all. A prefix rejected by checkPrefix gets only the red "too long" reply. An accepted prefix with a failed `s.Guild` gives no effect. The store is written iff the caller is an admin, the prefix is accepted and the session lookup succeeded, and it is written at most once. The write carries the message's guild ID, the live guild name, the requested prefix and an empty channel list. A failed write or re-read leaves the write as the only effect. Otherwise the confirmation shows the prefix read back. When `getArguments` returns an empty list, an admin's command panics and does nothing else. Nobody else's command panics. |
| Bot.SetPrefix | bot/bot.go:135-231 | Nothing happens unless the record is found, the content starts with the prefix, the author is not the bot and the channel is admitted. Nothing happens unless prefix + "prefix" occurs somewhere in the content. With exactly one argument the reply names the stored prefix. With any other number of arguments and no positive permission answer nothing happens. Any record written carries the message's guild ID and the requested, accepted prefix, and only an admin causes one to be written. |
| Bot.Persist | bot/bot.go:195-215 | The write, re-read and confirmation step shared by the prefix change and both setbotchannel forms (also bot/bot.go:274-295 and 328-352). The write always comes first. A failed write or re-read leaves the write as the only effect. Otherwise the effects after the write are the confirmation built from the record read back. |
| Bot.FirstTooShort | bot/bot.go:299-317 | Returns the position of the first token shorter than 18 bytes, every earlier token being long enough. It returns nothing iff every token is long enough. |
| Bot.OnlyThisChannel | bot/bot.go:259-297 | Writes exactly one record, whose channel list is exactly the current channel and whose name and prefix are the loaded ones. A failed write or re-read leaves the write as the only effect. Otherwise a green confirmation names the first channel read back. If the list read back is empty, the handler panics instead. |
| Bot.ListedChannels | bot/bot.go:299-352 | All or nothing. If some token is too short, the only effect is one red reply naming the first such token. Otherwise the first effect writes the tokens, in order, as the whole channel list, with the loaded name and prefix. Nothing is written unless every token is long enough. A failed write or re-read leaves the write as the only effect. Otherwise the confirmation lists the channels read back. It never panics. |
| Bot.BotChannelCommand | bot/bot.go:252-353 | Without a positive permission answer there is no effect. With one, the command takes the shortcut for one argument, the listed channels for more, and panics for none. Every written record keeps the guild ID, name and prefix. Whenever a record is written, every argument after the first is at least 18 bytes long. There is at most one write. |
| Bot.SetBotChannel | bot/bot.go:233-357 | Nothing happens unless the gates pass, prefix + "setbotchannel" occurs somewhere in the content and the permission check answers yes. Any written record keeps the loaded name and prefix. Every channel ID in it is either the current channel or at least 18 bytes long. |
| Bot.ChannelIds | bot/bot.go:74-78 | The IDs of the joined guild's channels are collected in channel order, one per channel. |
| Bot.GuildJoinInit | bot/bot.go:67-96 | A join writes iff the session lookup succeeds and the store lookup fails, either because the guild has no record or because the store errs. The record written has the guild's ID and name, the default prefix and every channel ID in channel order. An existing record is written only when its lookup errs. |
| Text.ContainsIffOccurs | bot/bot.go:152 | The model of strings.Contains holds exactly when the searched-for text occurs at some position of the content, in both directions. |
| Text.ByteLength | bot/bot.go:303 | Go's len of a string counts UTF-8 bytes. A one-character string has the width of its character. The count lies between the number of characters and four times that number. It equals the number of characters iff every character is ASCII. |
| Text.RuneWidth | bot/bot.go:303 | The UTF-8 width of one character (section 3 of RFC 3629): 1 byte below 0x80, 2 below 0x800, 3 below 0x10000, and 4 otherwise, each in both directions. |
| Text.ByteLengthAppend | bot/bot.go:303 | The byte length of a concatenation is the sum of the byte lengths. Together with the one-character case, this fixes len as the sum of the characters' widths. |
| Text.TwoByteCharacters | bot/bot.go:303 | A string of two-byte characters has twice as many bytes as characters. So nine "é" are 18 bytes and pass the channel-ID length test. |
| Text.Join | bot/bot.go:341 | strings.Join of no elements is empty, and of one element is that element. Otherwise the result starts with the first element, and its length is the elements' total length plus one separator between each adjacent pair. |
| Text.JoinSnoc | bot/bot.go:341 | Joining a non-empty list extended by one element gives the old join, then one separator, then the element. Together with the empty and one-element cases, this fixes the joined string as the elements in order, with a separator between each adjacent pair. |
| Text.JoinContainsEvery | bot/bot.go:339-346 | Every channel ID read back occurs in the joined list that the setbotchannel confirmation shows. |
| Properties.PingExcludesAdminCommands | bot/bot.go:114 | A message that gets a pong is silent for the prefix and setbotchannel handlers, whatever the oracle answers. |
| Properties.KeywordMatchedAnywhere | bot/bot.go:150-153 | With prefix "!", both "!say !prefix" and "!prefixes" are recognised as the prefix command, whatever their arguments. |
| Properties.KeywordInsideSentenceChangesPrefix | bot/bot.go:169-199 | With prefix "!", the message "!say !prefix" split into two tokens makes an admin's command write the prefix "!prefix" when checkPrefix accepts it and the session lookup succeeds. |
| Properties.ShowPrefixIgnoresAnswers | bot/bot.go:155-166 | With one argument, the prefix handler's effects do not depend on the permission check or on any other foreign call. |
| Properties.SetPrefixRoundTrip | bot/bot.go:175-199 | Suppose a prefix change was written and the store then holds the new prefix. Then "<new prefix>prefix" replies with the new prefix. |
| Properties.SetPrefixWriteIgnoresStoredRecord | bot/bot.go:186-195 | Two prefix changes for the same guild with the same requested prefix write the same record when their live guild names agree. This holds whatever the store held before and whatever the permission, write and re-read answers were, so a retry after a failed write writes the same record. |
| Properties.SetBotChannelIdempotent | bot/bot.go:299-331 | Suppose checkAllowedChannel still admits the command's channel under the record the first run wrote. Then re-running the same setbotchannel command against that record gives the same effects: the same record is written and the same reply is sent. The list replaces the old one rather than merging with it. |
| Properties.JoinInitOnce | bot/bot.go:79-94 | After the record a join wrote is stored, a later join for that guild whose store lookup does not err writes nothing, whatever the session answers about the guild. |
| Properties.JoinLookupErrorResetsRecord | bot/bot.go:79-93 | A store error while looking up a guild that has a record makes the join write the defaults over it: the default prefix and every channel. |

## Left out

- `Start` and `init` (session creation, intents, handler registration, log setup): process setup and I/O.
- Logging, and the errors of `ChannelMessageSendEmbed` and `MessageReactionAdd`: they are only logged, and what a handler attempts afterwards does not depend on them.
- The discordgo session and the `database` package are foreign code. Their answers are inputs (`Answers`), and their calls appear as effects.
- `InsertOrUpdateGuild` is defined in the `database` package, outside this model; whether it replaces or merges is not modelled. Properties are therefore stated on the record passed to the write. Lemmas about a later event state what the store must hold as a hypothesis.
- `NewEmbed` is reduced to a colour and a text. Replies always go to the message's channel, and the reaction always goes on the message, so neither effect carries IDs.
- Timestamps (`time.Now().UTC()`) are not visible in replies and are nondeterministic. They are not part of `GuildSettings`.
- `checkAllowedChannel`, `getArguments`, `checkPrefix` and `memberHasPermission` are not part of this model. Their definitions lie outside `bot/bot.go`, so the first three are uninterpreted functions and the last is an answer. No maximum prefix length and no tokenisation is assumed.
- In the join handler, the answer of `s.Guild(g.ID)` is an input and is not tied to the event's guild ID. A failed default insert is only logged and ends the handler, so it is not an input.
- Concurrent execution of the handlers and last-writer-wins races at the store: concurrency.
