/**
 * The pure decisions of the member-join handler: where the welcome goes,
 * and how the inviter is named in it.
 */
module Welcome {
  import opened Wrappers
  import opened Platform
  import opened Invites

  /**
   * The guild has a tracking channel assigned. The handler tests the stored id
   * for truthiness, so an empty id counts as no assignment.
   */
  predicate Assigned(tracking: map<GuildId, ChannelId>, guild: GuildId) {
    guild in tracking && tracking[guild] != ""
  }

  /**
   * The channel the welcome goes to: the assigned channel looked up in the
   * guild's channel cache, with no fallback when that lookup misses, or the
   * guild's system channel when nothing is assigned. `None` means the join is
   * skipped.
   */
  function Destination(tracking: map<GuildId, ChannelId>, guild: GuildView): (r: Option<Channel>)
    ensures Assigned(tracking, guild.id) ==> (r.Some? <==> tracking[guild.id] in guild.channels)
    ensures Assigned(tracking, guild.id) && r.Some? ==> r.value == guild.channels[tracking[guild.id]]
    ensures !Assigned(tracking, guild.id) ==> r == guild.systemChannel
  {
    if Assigned(tracking, guild.id) then Lookup(guild.channels, tracking[guild.id])
    else guild.systemChannel
  }

  /** Assigning a cached channel makes it the destination, whatever the system channel is. */
  lemma AssignedChannelIsDestination(tracking: map<GuildId, ChannelId>, guild: GuildView, c: Channel)
    requires c.id != "" && c.id in guild.channels && guild.channels[c.id] == c
    ensures Destination(tracking[guild.id := c.id], guild) == Some(c)
  {
  }

  const UnknownInviter: string := "dengan undangan yang tidak diketahui"

  function InvitedBy(tag: string): string { "diundang oleh **" + tag + "**" }

  /** `t` occurs in `s` starting at index `i`. */
  predicate OccursAt(s: string, t: string, i: nat) {
    i + |t| <= |s| && s[i..i + |t|] == t
  }

  /** `t` occurs in `s` as a contiguous piece. */
  ghost predicate Contains(s: string, t: string) {
    exists i: nat :: OccursAt(s, t, i)
  }

  /**
   * The inviter phrase of the welcome. Reading the tag of the attributed
   * invite's inviter throws when the invite has no inviter.
   */
  function InviterPhrase(used: Option<Invite>): (r: Result<string, Fault>)
    ensures used.None? ==> r == Ok(UnknownInviter)
    ensures used.Some? && used.value.inviter.Some? ==>
              r.Ok? && Contains(r.value, used.value.inviter.value) && r.value != UnknownInviter
    ensures used.Some? && used.value.inviter.None? ==> r == Err(InviterMissing)
  {
    match used
    case None => Ok(UnknownInviter)
    case Some(inv) =>
      match inv.inviter
      case None => Err(InviterMissing)
      case Some(tag) =>
        var phrase := InvitedBy(tag);
        assert OccursAt(phrase, tag, 16);
        assert phrase[1] != UnknownInviter[1];
        Ok(phrase)
  }
}
