/**
 * The slice of the chat platform that the bot's handlers read and act on.
 * Everything the SDK would fetch or deliver arrives here as a plain value,
 * and everything the bot would send, delete or reply becomes an `Action`.
 */
module Platform {
  import opened Wrappers

  type GuildId = string
  type ChannelId = string
  type UserId = string

  /** A channel as the bot sees it: its id and whether it can hold text messages. */
  datatype Channel = Channel(id: ChannelId, textBased: bool)

  /** The guild fields the handlers read, with the guild's channel cache keyed by id. */
  datatype GuildView = GuildView(
    id: GuildId,
    name: string,
    ownerId: UserId,
    memberCount: nat,
    createdTimestamp: int,
    channels: map<ChannelId, Channel>,
    systemChannel: Option<Channel>)

  /** What a handler asks the platform to do, in the order it asks. */
  datatype Action =
    | SendWelcome(channel: ChannelId, member: UserId, guildName: string, inviterInfo: string, memberOrdinal: nat)
    | DeleteMessage(channel: ChannelId, message: string)
    | SendText(channel: ChannelId, text: string)
    | Reply(text: string, ephemeral: bool)
    | ReplyServerInfo(guild: GuildId, owner: string, memberCount: nat, createdSeconds: int)

  /** The TypeErrors a handler can throw after it has started. */
  datatype Fault =
    | CacheMissing    // no snapshot cached for the guild, so the cached collection is undefined
    | InviterMissing  // the attributed invite has no inviter
    | GuildMissing    // a command invoked outside a guild, where the interaction's guild and member are null
    | ChannelMissing  // the interaction carries no `channel` option, so the channel read is null

  /** How a user renders inside message text. */
  function UserMention(id: UserId): string { "<@" + id + ">" }

  /** How a channel renders inside message text. */
  function ChannelMention(id: ChannelId): string { "<#" + id + ">" }

  /** `Get` on a map, as the SDK's collections answer it: the value or nothing. */
  function Lookup<K, V>(m: map<K, V>, k: K): (r: Option<V>)
    ensures r.Some? <==> k in m
    ensures r.Some? ==> r.value == m[k]
  {
    if k in m then Some(m[k]) else None
  }
}
