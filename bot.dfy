/**
 * The bot's process-wide state and its event handlers. Each handler runs to
 * completion before the next event is handled; what the platform would
 * fetch arrives as a parameter and what the bot would send comes back as
 * actions.
 */
module BotState {
  import opened Wrappers
  import opened Platform
  import opened Invites
  import opened Welcome
  import opened Commands

  /** The cache after storing each guild's fetched snapshot in turn, later entries overwriting earlier ones. */
  function Refreshed(cache: map<GuildId, Snapshot>, guilds: seq<(GuildId, Snapshot)>): map<GuildId, Snapshot>
  {
    if guilds == [] then cache
    else
      var last := guilds[|guilds| - 1];
      Refreshed(cache, guilds[..|guilds| - 1])[last.0 := last.1]
  }

  /** Startup caches a snapshot for every listed guild and keeps every other entry. */
  lemma {:induction false} RefreshedKeys(cache: map<GuildId, Snapshot>, guilds: seq<(GuildId, Snapshot)>)
    ensures Refreshed(cache, guilds).Keys == cache.Keys + set i | 0 <= i < |guilds| :: guilds[i].0
  {
    if guilds != [] {
      var init := guilds[..|guilds| - 1];
      RefreshedKeys(cache, init);
      var s1 := set i | 0 <= i < |init| :: init[i].0;
      var s2 := set i | 0 <= i < |guilds| :: guilds[i].0;
      assert s2 == s1 + {guilds[|guilds| - 1].0} by {
        forall g | g in s2 ensures g in s1 + {guilds[|guilds| - 1].0} {
          var i :| 0 <= i < |guilds| && guilds[i].0 == g;
          if i < |init| { assert init[i].0 == g; }
        }
        forall g | g in s1 ensures g in s2 {
          var i :| 0 <= i < |init| && init[i].0 == g;
          assert guilds[i].0 == g;
        }
      }
    }
  }

  /** A guild that is not in the startup list keeps its cache entry. */
  lemma {:induction false} RefreshedElsewhereUnchanged(cache: map<GuildId, Snapshot>, guilds: seq<(GuildId, Snapshot)>, g: GuildId)
    requires forall i :: 0 <= i < |guilds| ==> guilds[i].0 != g
    ensures g in Refreshed(cache, guilds) <==> g in cache
    ensures g in cache ==> Refreshed(cache, guilds)[g] == cache[g]
  {
    if guilds != [] {
      var init := guilds[..|guilds| - 1];
      assert forall i :: 0 <= i < |init| ==> init[i] == guilds[i];
      RefreshedElsewhereUnchanged(cache, init, g);
    }
  }

  /** With distinct guild ids, each listed guild ends up cached with its own fetched snapshot. */
  lemma {:induction false} RefreshedStoresEach(cache: map<GuildId, Snapshot>, guilds: seq<(GuildId, Snapshot)>, k: nat)
    requires k < |guilds|
    requires forall i, j :: 0 <= i < j < |guilds| ==> guilds[i].0 != guilds[j].0
    ensures guilds[k].0 in Refreshed(cache, guilds)
    ensures Refreshed(cache, guilds)[guilds[k].0] == guilds[k].1
  {
    var n := |guilds| - 1;
    var init := guilds[..n];
    if k < n {
      assert forall i :: 0 <= i < |init| ==> init[i] == guilds[i];
      RefreshedStoresEach(cache, init, k);
      assert guilds[n].0 != guilds[k].0;
    }
  }

  class Bot {
    /** The last invite list fetched for each guild. */
    var invitesCache: map<GuildId, Snapshot>
    /** The welcome channel assigned to each guild by `setinvitechannel`. */
    var inviteTrackingChannel: map<GuildId, ChannelId>

    /** A freshly started process: nothing cached, nothing assigned. */
    constructor ()
      ensures invitesCache == map[] && inviteTrackingChannel == map[]
    {
      invitesCache := map[];
      inviteTrackingChannel := map[];
    }

    /** Store the guild's freshly fetched invite list, replacing whatever was cached for it. */
    method UpdateInviteCache(guild: GuildId, fetched: Snapshot)
      modifies this
      ensures invitesCache == old(invitesCache)[guild := fetched]
      ensures inviteTrackingChannel == old(inviteTrackingChannel)
    {
      invitesCache := invitesCache[guild := fetched];
    }

    /** Startup: refresh the cache of every guild the bot is in, one after another. */
    method OnReady(guilds: seq<(GuildId, Snapshot)>)
      modifies this
      ensures invitesCache == Refreshed(old(invitesCache), guilds)
      ensures inviteTrackingChannel == old(inviteTrackingChannel)
    {
      var i := 0;
      while i < |guilds|
        invariant 0 <= i <= |guilds|
        invariant invitesCache == Refreshed(old(invitesCache), guilds[..i])
        invariant inviteTrackingChannel == old(inviteTrackingChannel)
      {
        assert guilds[..i + 1][..i] == guilds[..i];
        UpdateInviteCache(guilds[i].0, guilds[i].1);
        i := i + 1;
      }
      assert guilds[..i] == guilds;
    }

    /** An invite was created in `guild`: re-cache the guild's fetched list. */
    method OnInviteCreate(guild: GuildId, fetched: Snapshot)
      modifies this
      ensures invitesCache == old(invitesCache)[guild := fetched]
      ensures inviteTrackingChannel == old(inviteTrackingChannel)
    {
      UpdateInviteCache(guild, fetched);
    }

    /** An invite was deleted in `guild`: re-cache the guild's fetched list. */
    method OnInviteDelete(guild: GuildId, fetched: Snapshot)
      modifies this
      ensures invitesCache == old(invitesCache)[guild := fetched]
      ensures inviteTrackingChannel == old(inviteTrackingChannel)
    {
      UpdateInviteCache(guild, fetched);
    }

    /**
     * A member joined `guild`; `fetched` is the invite list fetched after the
     * join. With no destination channel nothing is fetched, stored or sent.
     * Otherwise the fetched list replaces the cached one before attribution,
     * so it is stored even when attribution or the inviter phrase then throws.
     */
    method OnMemberJoin(member: UserId, guild: GuildView, fetched: Snapshot) returns (r: Result<seq<Action>, Fault>)
      modifies this
      ensures inviteTrackingChannel == old(inviteTrackingChannel)
      ensures Destination(old(inviteTrackingChannel), guild).None? ==>
                r == Ok([]) && invitesCache == old(invitesCache)
      ensures Destination(old(inviteTrackingChannel), guild).Some? ==>
                invitesCache == old(invitesCache)[guild.id := fetched]
      ensures Destination(old(inviteTrackingChannel), guild).Some? ==>
                var used := Attribute(Lookup(old(invitesCache), guild.id), fetched);
                if used.Err? then r == Err(used.error)
                else
                  var phrase := InviterPhrase(used.value);
                  if phrase.Err? then r == Err(phrase.error)
                  else r == Ok([SendWelcome(Destination(old(inviteTrackingChannel), guild).value.id,
                                            member, guild.name, phrase.value, guild.memberCount)])
    {
      var inviteChannel := Destination(inviteTrackingChannel, guild);
      if inviteChannel.None? {
        return Ok([]);
      }
      var cachedInvites := Lookup(invitesCache, guild.id);
      UpdateInviteCache(guild.id, fetched);
      var usedInvite := Attribute(cachedInvites, fetched);
      if usedInvite.Err? {
        return Err(usedInvite.error);
      }
      var inviterInfo := InviterPhrase(usedInvite.value);
      if inviterInfo.Err? {
        return Err(inviterInfo.error);
      }
      r := Ok([SendWelcome(inviteChannel.value.id, member, guild.name, inviterInfo.value, guild.memberCount)]);
    }

    /**
     * The `setinvitechannel` command in a guild: a refusal leaves the tracking
     * map as it was; otherwise the guild is sent to the chosen channel and
     * every other guild keeps its assignment. An administrator's call without
     * a channel option throws before anything changes.
     */
    method SetInviteChannel(guild: GuildId, callerIsAdmin: bool, channel: Option<Channel>)
      returns (r: Result<Action, Fault>)
      modifies this
      ensures var d := DecideSetInviteChannel(callerIsAdmin, channel);
              r == if d.Err? then Err(d.error) else Ok(SetInviteChannelReply(d.value))
      ensures !(callerIsAdmin && channel.Some? && channel.value.textBased) ==>
                inviteTrackingChannel == old(inviteTrackingChannel)
      ensures callerIsAdmin && channel.Some? && channel.value.textBased ==>
                inviteTrackingChannel == old(inviteTrackingChannel)[guild := channel.value.id]
      ensures invitesCache == old(invitesCache)
    {
      var d := DecideSetInviteChannel(callerIsAdmin, channel);
      if d.Err? {
        return Err(d.error);
      }
      if d.value.Assign? {
        inviteTrackingChannel := inviteTrackingChannel[guild := d.value.channel];
      }
      r := Ok(SetInviteChannelReply(d.value));
    }

    /**
     * The interaction handler: commands only, dispatched on the command's
     * name. Either command invoked outside a guild throws on its first read
     * of the guild or the member.
     */
    method OnInteraction(it: Interaction) returns (r: Result<seq<Action>, Fault>)
      modifies this
      ensures invitesCache == old(invitesCache)
      ensures !(it.isCommand && it.commandName == SetInviteChannelName && it.guild.Some?) ==>
                inviteTrackingChannel == old(inviteTrackingChannel)
      ensures !it.isCommand ==> r == Ok([])
      ensures it.isCommand && it.commandName == ServerInfoName ==>
                r == if it.guild.None? then Err(GuildMissing) else Ok([ServerInfo(it.guild.value)])
      ensures it.isCommand && it.commandName == SetInviteChannelName && it.guild.None? ==>
                r == Err(GuildMissing)
      ensures it.isCommand && it.commandName == SetInviteChannelName && it.guild.Some? ==>
                var d := DecideSetInviteChannel(it.callerIsAdmin, it.channel);
                (r == if d.Err? then Err(d.error) else Ok([SetInviteChannelReply(d.value)])) &&
                inviteTrackingChannel ==
                  if d.Ok? && d.value.Assign? then old(inviteTrackingChannel)[it.guild.value.id := d.value.channel]
                  else old(inviteTrackingChannel)
      ensures it.isCommand && it.commandName != ServerInfoName && it.commandName != SetInviteChannelName ==>
                r == Ok([])
    {
      var replies: seq<Action> := [];
      assert ServerInfoName != SetInviteChannelName by { assert |ServerInfoName| != |SetInviteChannelName|; }
      if !it.isCommand {
        return Ok(replies);
      }
      if it.commandName == ServerInfoName {
        if it.guild.None? {
          return Err(GuildMissing);
        }
        replies := replies + [ServerInfo(it.guild.value)];
        assert replies == [ServerInfo(it.guild.value)];
        assert it.commandName != SetInviteChannelName;
      }
      if it.commandName == SetInviteChannelName {
        if it.guild.None? {
          return Err(GuildMissing);
        }
        var reply := SetInviteChannel(it.guild.value.id, it.callerIsAdmin, it.channel);
        ghost var d := DecideSetInviteChannel(it.callerIsAdmin, it.channel);
        if reply.Err? {
          return Err(reply.error);
        }
        replies := replies + [reply.value];
        assert replies == [SetInviteChannelReply(d.value)];
      }
      r := Ok(replies);
    }
  }

  /**
   * A fresh process with an invite cached for guild `g`: an administrator
   * assigns text channel `c`, then a member joins through invite A. The
   * welcome goes to `c`, not to the system channel, and names A's inviter.
   */
  method AssignThenJoin(g: GuildView, c: Channel, system: Channel, member: UserId)
    returns (reply: Result<Action, Fault>, joined: Result<seq<Action>, Fault>)
    requires c.id != "" && c.textBased && c.id in g.channels && g.channels[c.id] == c
    requires g.systemChannel == Some(system) && system != c
    ensures reply == Ok(Reply(ConfirmText(c.id), false))
    ensures joined == Ok([SendWelcome(c.id, member, g.name, InvitedBy("Alice"), g.memberCount)])
  {
    var bot := new Bot();
    bot.OnReady([(g.id, [Invite("A", 3, Some("Alice")), Invite("B", 1, Some("Bob"))])]);
    reply := bot.SetInviteChannel(g.id, true, Some(c));
    AssignedChannelIsDestination(map[], g, c);
    assert bot.inviteTrackingChannel == map[][g.id := c.id];
    joined := bot.OnMemberJoin(member, g, [Invite("A", 4, Some("Alice")), Invite("B", 1, Some("Bob"))]);
  }
}
