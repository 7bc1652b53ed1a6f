/** The two slash commands' pure parts: the guards and replies of `setinvitechannel`, and the `serverinfo` reply. */
module Commands {
  import opened Wrappers
  import opened Platform

  const ServerInfoName: string := "serverinfo"
  const SetInviteChannelName: string := "setinvitechannel"

  /**
   * An interaction as the handler receives it. The commands are registered
   * globally, so they can be invoked in a direct message, where there is no
   * guild (and no guild member). `callerIsAdmin` is read only inside a guild;
   * `channel` is the `channel` option, which only `setinvitechannel` has.
   */
  datatype Interaction = Interaction(
    isCommand: bool,
    commandName: string,
    guild: Option<GuildView>,
    callerIsAdmin: bool,
    channel: Option<Channel>)

  /** The outcome of the `setinvitechannel` guards. */
  datatype SetChannelDecision = Denied | NotText | Assign(channel: ChannelId)

  /**
   * `setinvitechannel` checks the caller's Administrator permission first and
   * only then reads the chosen channel and asks whether it can hold text;
   * calling `isTextBased` on a missing channel throws.
   */
  function DecideSetInviteChannel(callerIsAdmin: bool, channel: Option<Channel>): (d: Result<SetChannelDecision, Fault>)
    ensures !callerIsAdmin ==> d == Ok(Denied)
    ensures d.Err? <==> callerIsAdmin && channel.None?
    ensures d.Err? ==> d.error == ChannelMissing
    ensures callerIsAdmin && channel.Some? && !channel.value.textBased ==> d == Ok(NotText)
    ensures d.Ok? && d.value.Assign? <==> callerIsAdmin && channel.Some? && channel.value.textBased
    ensures d.Ok? && d.value.Assign? ==> d.value.channel == channel.value.id
  {
    if !callerIsAdmin then Ok(Denied)
    else if channel.None? then Err(ChannelMissing)
    else if !channel.value.textBased then Ok(NotText)
    else Ok(Assign(channel.value.id))
  }

  const DeniedText: string :=
    "\U{1F6AB} Kamu memerlukan izin **Administrator** untuk menggunakan perintah ini."
  const NotTextText: string := "\U{1F6AB} Harap pilih channel teks yang valid."

  function ConfirmText(channel: ChannelId): string {
    "\U{2705} Channel tracking undangan berhasil diatur ke " + ChannelMention(channel) + "."
  }

  /** The reply to `setinvitechannel`: both refusals are ephemeral, the confirmation is not. */
  function SetInviteChannelReply(d: SetChannelDecision): (a: Action)
    ensures a.Reply?
    ensures a.ephemeral <==> !d.Assign?
    ensures d == Denied ==> a.text == DeniedText
    ensures d == NotText ==> a.text == NotTextText
    ensures d.Assign? ==> a.text == ConfirmText(d.channel)
  {
    match d
    case Denied => Reply(DeniedText, true)
    case NotText => Reply(NotTextText, true)
    case Assign(c) => Reply(ConfirmText(c), false)
  }

  /** Milliseconds since the epoch to whole seconds, rounding down as `Math.floor` does, negative times included. */
  function CreatedSeconds(ms: int): (s: int)
    ensures s * 1000 <= ms < s * 1000 + 1000
  {
    ms / 1000
  }

  /** The `serverinfo` reply: the guild's id, an owner mention, its member count and its creation time in seconds. */
  function ServerInfo(guild: GuildView): (a: Action)
    ensures a.ReplyServerInfo? && a.guild == guild.id && a.owner == UserMention(guild.ownerId)
    ensures a.memberCount == guild.memberCount
    ensures a.createdSeconds * 1000 <= guild.createdTimestamp < a.createdSeconds * 1000 + 1000
  {
    ReplyServerInfo(guild.id, UserMention(guild.ownerId), guild.memberCount, CreatedSeconds(guild.createdTimestamp))
  }
}
