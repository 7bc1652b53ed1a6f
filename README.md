# Invite-tracking community bot: a verified model of its decision layer

The bot welcomes new members of a guild (a chat-platform server), tries to
name the member who invited them by comparing invite use counts before and
after the join, removes links posted by non-administrators, and
offers two slash commands, `serverinfo` and `setinvitechannel`. Its only
state is two process-wide maps: the invite cache (guild → last fetched
invite list) and the tracking-channel map (guild → welcome channel id).

This model keeps that state in a `Bot` class whose event handlers are
methods with `modifies this`, and models the pure parts as functions:

- `Invites`: invite snapshots and attribution. The invite credited with a
  join is the first invite in the freshly fetched list whose use count is
  strictly above the cached use count for the same code.
- `Welcome`: where the welcome goes, and how it names the inviter. The
  destination is the assigned channel (no fallback when the lookup misses),
  or the system channel when nothing is assigned.
- `LinkFilter`: the link rule. The pattern `https?://[^\s]+` is stated as a
  predicate. A left-to-right matcher is proved to decide it. The moderation
  decision is proved against the predicate.
- `Commands`: the guards and replies of `setinvitechannel` (the admin check
  comes before the channel check), and the `serverinfo` reply.
- `BotState`: the `Bot` class with the startup loop, the invite
  create/delete handlers, the join handler, and the interaction dispatch.
  The client does not request the intent under which invite events are
  delivered, so the invite handlers are modelled as written but never run
  in the deployed bot (see "Left out").
- `Platform` and `Wrappers`: ids, channels, guild views, outgoing actions,
  the handler faults, `Option` and `Result`.

Platform calls become plain values. A fetched invite list is a parameter.
The Administrator permission is a boolean. "Can hold text" is a flag on the
channel. Sends, deletes and replies are returned as `Action` values, in the
order the handler issues them.

Where the code and the documented design disagree, the model follows the
code. The documented design says a code missing from the cached snapshot
counts as zero uses, so it could be credited. In the code, the cached use
count of such a code is `undefined`, and `undefined < n` is false, so the
invite is never credited (`Invites.AbsentCodeNeverAttributed`). The design
also says a missing snapshot reads as empty. In the code, a guild with no
cached entry makes the attribution predicate throw as soon as the fetched
list is non-empty. The model returns `Err(CacheMissing)` for that case.

## Model

| member | source | states |
|---|---|---|
| Invites.Find | index.js:77 | the cached entry for a code, if any, is an invite of the snapshot with that code; nothing is found exactly when no invite has that code |
| Invites.FirstIncreasedFrom | index.js:77 | the index found is the first one at or after `k` whose invite has strictly more uses than the cached entry for its code; no index is found exactly when no such invite exists |
| Invites.Attribute | index.js:73-77 | fails with `CacheMissing` exactly when no snapshot is cached and the fetched list is non-empty; otherwise an attributed invite is a fetched invite that passes the test while every earlier one fails it, and "no attribution" holds exactly when no fetched invite passes |
| Invites.AttributeFirstIncreased | index.js:77 | the first fetched invite that passes the test is the attributed one |
| Invites.AttributeSingleIncrease | index.js:77 | when exactly one invite shows more uses than cached, the join is attributed to it |
| Invites.AbsentCodeNeverAttributed | index.js:77 | an invite whose code is not in the cached snapshot is never attributed, whatever its use count |
| Invites.NoIncreaseNoAttribution | index.js:77 | if no fetched invite has more uses than a cached invite with its code, nothing is attributed |
| Welcome.Destination | index.js:68-71 | with a truthy assignment, a destination exists exactly when the assigned id is in the guild's channel cache, and it is the channel cached under that id (no fallback to the system channel when the lookup misses); with no assignment it is the system channel |
| Welcome.AssignedChannelIsDestination | index.js:68-69 | once a guild is assigned a cached channel, that channel is the destination, whatever the system channel is |
| Welcome.InviterPhrase | index.js:78 | no attribution gives exactly the unknown-inviter text; an attributed invite gives a phrase that contains its inviter's tag and differs from the unknown text; an attributed invite without an inviter throws `InviterMissing` |
| LinkFilter.MatchFromIsLinkAt | index.js:100-101 | the character-by-character matcher at one position agrees with the pattern's meaning there |
| LinkFilter.SearchFromFindsLink | index.js:100-101 | the left-to-right search from `i` succeeds exactly when a match starts at `i` or later |
| LinkFilter.SearchDecidesLink | index.js:100-101 | searching the whole content decides whether it contains a link |
| LinkFilter.Moderate | index.js:96-109 | the message is deleted, and the notice then posted in its channel, exactly when the author is not a bot, the content contains a link, and the author is not an Administrator; otherwise nothing happens |
| LinkFilter.ExampleLinkPost | index.js:100-103 | `check this out http://example.com` from a non-administrator is removed; the same post from an administrator is not |
| LinkFilter.BareSchemeIsNoLink | index.js:100-101 | the post `see https:// x` from a non-administrator is left alone: the scheme is followed by a space, and the pattern needs a non-whitespace character right after it |
| Commands.DecideSetInviteChannel | index.js:132-142 | a non-administrator is denied whatever the channel, even a missing one; an administrator's call without a channel option throws `ChannelMissing`, and only then; an administrator choosing a channel that cannot hold text is refused; an assignment happens exactly when both checks pass, and it assigns the chosen channel's id |
| Commands.SetInviteChannelReply | index.js:133-143 | both refusals are ephemeral replies with their fixed texts; the confirmation is a public reply that mentions the channel |
| Commands.CreatedSeconds | index.js:126 | the creation time in seconds is the floor of the milliseconds divided by 1000, negative times included |
| Commands.ServerInfo | index.js:116-129 | the reply carries the guild id, an owner mention, the member count and the creation time in whole seconds, at most the creation time and less than one second before it |
| BotState.RefreshedKeys | index.js:30-32 | after startup, the cached guilds are the previously cached ones plus every listed guild |
| BotState.RefreshedElsewhereUnchanged | index.js:30-32 | a guild not in the startup list keeps its cache entry, or stays uncached |
| BotState.RefreshedStoresEach | index.js:30-32 | with distinct guild ids, each listed guild ends up cached with its own fetched list |
| BotState.Bot.constructor | index.js:13-14 | a new process starts with both maps empty |
| BotState.Bot.UpdateInviteCache | index.js:17-20 | the guild's entry becomes the fetched list; every other guild's entry and the tracking map are unchanged |
| BotState.Bot.OnReady | index.js:30-32 | the cache becomes the old cache refreshed with each guild's fetched list in turn; the tracking map is unchanged |
| BotState.Bot.OnInviteCreate | index.js:148-150 | only the affected guild's cache entry is replaced with the fetched list; the tracking map is untouched |
| BotState.Bot.OnInviteDelete | index.js:153-155 | only the affected guild's cache entry is replaced with the fetched list; the tracking map is untouched |
| BotState.Bot.OnMemberJoin | index.js:67-92 | with no destination, nothing is sent and the cache is unchanged; otherwise the guild's entry becomes the fetched list (other guilds unchanged) before attribution, and the outcome is the attribution fault, the inviter fault, or one welcome to the destination carrying the inviter phrase |
| BotState.Bot.SetInviteChannel | index.js:132-144 | the reply, or the `ChannelMissing` fault, is the one the guards decide; a refusal or a fault leaves the tracking map unchanged; otherwise the guild maps to the chosen channel id and every other guild keeps its entry; the invite cache is unchanged |
| BotState.Bot.OnInteraction | index.js:113-145 | non-commands get no reply; either command invoked outside a guild fails with `GuildMissing` and changes nothing; in a guild, `serverinfo` gets the server-info reply and `setinvitechannel` goes through the guarded update; other names get nothing; only `setinvitechannel` in a guild can change the tracking map |
| BotState.AssignThenJoin | index.js:67-92 | after an administrator assigns a text channel, a join through invite A (3 → 4 uses, inviter Alice) sends the welcome to that channel, not the system channel, naming Alice |

## Left out

- BotState.Bot.OnMemberJoin: fetched invite lists are modelled as independent, immutable values. The platform SDK instead caches each fetched invite object per code and patches that same object in place on every later fetch, so the list stored at the previous refresh shares its invites with the fresh one. In the deployed bot every invite present in both lists is then compared with itself (`uses < uses` is false), and a code absent from the old list is never credited (`Invites.AbsentCodeNeverAttributed`), so the welcome always takes the unknown-inviter phrase (`Invites.NoIncreaseNoAttribution` covers equal use counts). The model, and `BotState.AssignThenJoin`, describe the comparison the code states over two distinct snapshots; the SDK's object sharing is not part of this model.
- Client construction, gateway intents, login and presence (index.js:1-11, 24-29, 158): vendor SDK setup and network I/O.
- Slash-command registration and its logging (index.js:37-64, 33): a foreign HTTP call that is logged and otherwise ignored; `OnReady` models only the cache loop.
- Embed construction (colours, titles, thumbnails, footers, timestamps, rules text) at index.js:80-92 and 118-127: the welcome is modelled as a `SendWelcome` action carrying the channel, member, guild name, inviter phrase and member ordinal; the server-info reply carries only its data fields.
- The invite fetches themselves, and their failures: each fetched list is a parameter. A join that is skipped at index.js:71 never fetches, so its parameter is ignored.
- Failed sends, deletes and replies, and the unawaited welcome send (index.js:92): actions are values, not effects.
- An unhandled rejection from an async handler: the model returns the fault as `Err`; it does not model the process-level reaction to it.
- Interleaving of handlers across `await` points: every handler is treated as one atomic step.
- The `ephemeral` flag on the link notice (index.js:106): it has no effect on a plain channel send, so `SendText` has no such flag.
- BotState.Bot.OnInviteCreate: the handler is modelled as written, but the client's intents (index.js:5-10) do not include the guild-invites intent, under which the platform delivers invite-created events, so in the deployed bot it never runs. The cache is then refreshed only at startup and on joins that have a destination, and by `Invites.AbsentCodeNeverAttributed` the first join through an invite created after the last refresh is always credited to an unknown inviter.
- BotState.Bot.OnInviteDelete: likewise never runs without the guild-invites intent; a deleted invite stays in the cached snapshot until the next refresh, which does not change attribution because only fetched invites are tested.
- Messages without a guild member (`message.member` null): the bot's intents cover only guild messages, so the author's Administrator flag is always an input.
- Which channel kinds are text-capable: the platform decides this; the model takes it as the channel's `textBased` flag.
- Duplicate invite codes in one list: a fetched collection is keyed by code, so codes do not repeat; `Invites.Find` takes the first match.
