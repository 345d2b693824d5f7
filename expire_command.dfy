/**
 * The `/expire` slash command: `setup` creates or re-activates a channel's
 * rule under the free-tier limit, `stop` deactivates it, `status` lists the
 * guild's active rules. Replies are tags standing for the embeds.
 */
module ExpireCommand {
  import opened Records
  import opened RuleStore
  import opened Database
  import opened RuleRoutes

  /** The channel option as resolved by Discord; `isText` stands for a guild text channel. */
  datatype ChannelOption = ChannelOption(id: string, name: string, isText: bool)

  /** One line of the status listing: the channel label and its hours. */
  datatype StatusLine = StatusLine(channelLabel: string, hours: int)

  datatype ExpireReply =
    | NotInGuild
    | NotTextChannel
    | FreeLimitReached(activeRules: nat)
    | SetupComplete(channelName: string, hours: int)
    | NoRuleForChannel
    | RuleStopped(channelName: string, previousHours: int)
    | NoActiveRules
    | ActiveRuleList(lines: seq<StatusLine>, total: nat)

  // ---------------------------------------------------------------------
  // setup
  // ---------------------------------------------------------------------

  /**
   * The setup reply: the guild and text-channel guards, then the free-tier
   * check, which counts every active rule of the guild (the channel being
   * set up included).
   */
  function SetupDecision(t: Tables, guildId: Option<string>, channel: Option<ChannelOption>, hours: int): ExpireReply {
    if guildId.None? then NotInGuild
    else if channel.None? || !channel.value.isText then NotTextChannel
    else if !WithinTierLimit(t.servers, t.rules, guildId.value) then FreeLimitReached(ActiveRuleCount(t.rules, guildId.value))
    else SetupComplete(channel.value.name, hours)
  }

  /**
   * The command and the dashboard route take the same decision: for a
   * guild text channel and allowed hours, setup is refused exactly when the
   * route answers 402 and goes ahead exactly when it answers 200.
   */
  lemma SetupAgreesWithRoute(t: Tables, guildId: string, channel: ChannelOption, hours: int)
    requires channel.isText && AllowedHours(hours)
    ensures SetupDecision(t, Some(guildId), Some(channel), hours).FreeLimitReached?
        <==> CreateRuleStatus(t.servers, t.rules, guildId, hours) == 402
    ensures SetupDecision(t, Some(guildId), Some(channel), hours).SetupComplete?
        <==> CreateRuleStatus(t.servers, t.rules, guildId, hours) == 200
  {
  }

  /**
   * On a free server, running setup again on the channel that already has
   * the active rule is refused as well, reporting at least that one rule.
   */
  lemma {:induction false} ResetupRefused(t: Tables, guildId: string, channel: ChannelOption, hours: int)
    requires channel.isText && IsFreeTier(t.servers, guildId)
    requires RuleKey(guildId, channel.id) in t.rules && t.rules[RuleKey(guildId, channel.id)].isActive
    ensures SetupDecision(t, Some(guildId), Some(channel), hours).FreeLimitReached?
    ensures SetupDecision(t, Some(guildId), Some(channel), hours).activeRules >= 1
  {
    FreeTierRefusesSecond(t.servers, t.rules, RuleKey(guildId, channel.id));
  }

  method HandleSetup(db: Database, guildId: Option<string>, channel: Option<ChannelOption>,
                     hours: int, userId: string, now: int) returns (reply: ExpireReply)
    requires db.Valid() && AllowedHours(hours)
    modifies db
    ensures db.Valid()
    ensures reply == SetupDecision(old(db.Snapshot()), guildId, channel, hours)
    ensures reply.SetupComplete? ==>
      && db.rules == Upsert(old(db.rules), old(db.nextRuleId), RuleKey(guildId.value, channel.value.id),
                            channel.value.name, hours, now, userId)
      && db.nextRuleId == NextIdAfterUpsert(old(db.rules), old(db.nextRuleId), RuleKey(guildId.value, channel.value.id))
    ensures !reply.SetupComplete? ==> db.rules == old(db.rules) && db.nextRuleId == old(db.nextRuleId)
    ensures db.messages == old(db.messages) && db.servers == old(db.servers)
  {
    if guildId.None? {
      return NotInGuild;
    }
    if channel.None? || !channel.value.isText {
      return NotTextChannel;
    }
    var serverId := guildId.value;
    var existingRules := ActiveRuleCount(db.rules, serverId);
    if serverId !in db.servers || db.servers[serverId].subscription == Free {
      if existingRules >= 1 {
        return FreeLimitReached(existingRules);
      }
    }
    db.UpsertRule(RuleKey(serverId, channel.value.id), channel.value.name, hours, now, userId);
    reply := SetupComplete(channel.value.name, hours);
  }

  // ---------------------------------------------------------------------
  // stop
  // ---------------------------------------------------------------------

  function StopDecision(t: Tables, guildId: Option<string>, channel: Option<ChannelOption>): ExpireReply {
    if guildId.None? then NotInGuild
    else if channel.None? || !channel.value.isText then NotTextChannel
    else
      match ActiveRule(t.rules, guildId.value, channel.value.id)
      case None => NoRuleForChannel
      case Some(rule) => RuleStopped(channel.value.name, rule.expirationHours)
  }

  /**
   * A stopped channel is no longer covered, its guild has exactly one
   * active rule fewer, and every other rule is as it was.
   */
  lemma {:induction false} StopUncovers(t: Tables, guildId: string, channel: ChannelOption)
    requires StopDecision(t, Some(guildId), Some(channel)).RuleStopped?
    ensures var key := RuleKey(guildId, channel.id);
      && key in t.rules
      && ActiveRule(Deactivate(t.rules, key), guildId, channel.id).None?
      && ActiveRuleCount(Deactivate(t.rules, key), guildId) == ActiveRuleCount(t.rules, guildId) - 1
      && (forall k :: k in t.rules && k != key ==> Deactivate(t.rules, key)[k] == t.rules[k])
  {
    DeactivateActiveCount(t.rules, RuleKey(guildId, channel.id), guildId);
  }

  method HandleStop(db: Database, guildId: Option<string>, channel: Option<ChannelOption>) returns (reply: ExpireReply)
    requires db.Valid()
    modifies db
    ensures db.Valid()
    ensures reply == StopDecision(old(db.Snapshot()), guildId, channel)
    ensures reply.RuleStopped? ==> db.rules == Deactivate(old(db.rules), RuleKey(guildId.value, channel.value.id))
    ensures !reply.RuleStopped? ==> db.rules == old(db.rules)
    ensures db.messages == old(db.messages) && db.servers == old(db.servers) && db.nextRuleId == old(db.nextRuleId)
  {
    if guildId.None? {
      return NotInGuild;
    }
    if channel.None? || !channel.value.isText {
      return NotTextChannel;
    }
    var rule := ActiveRule(db.rules, guildId.value, channel.value.id);
    if rule.None? {
      return NoRuleForChannel;
    }
    db.DeactivateRule(RuleKey(guildId.value, channel.value.id));
    reply := RuleStopped(channel.value.name, rule.value.expirationHours);
  }

  // ---------------------------------------------------------------------
  // status
  // ---------------------------------------------------------------------

  /** A rule's line: the cached channel's current name if the guild has it, else the stored name. */
  function LineFor(r: ChannelRule, channelNames: map<string, string>): StatusLine {
    StatusLine(if r.channelId in channelNames then channelNames[r.channelId] else r.channelName, r.expirationHours)
  }

  /** The listing's lines for the rules in the order given. */
  function LinesFor(rs: seq<ChannelRule>, channelNames: map<string, string>): seq<StatusLine> {
    seq(|rs|, i requires 0 <= i < |rs| => LineFor(rs[i], channelNames))
  }

  /**
   * The listing holds one line per active rule of the guild, each rule once
   * in some order, and nothing else; an empty guild gets its own reply.
   */
  method HandleStatus(db: Database, guildId: Option<string>, channelNames: map<string, string>)
    returns (reply: ExpireReply)
    requires db.Valid()
    ensures guildId.None? ==> reply == NotInGuild
    ensures guildId.Some? && ActiveRuleCount(db.rules, guildId.value) == 0 ==> reply == NoActiveRules
    ensures guildId.Some? && ActiveRuleCount(db.rules, guildId.value) > 0 ==>
      && reply.ActiveRuleList?
      && reply.total == ActiveRuleCount(db.rules, guildId.value) == |reply.lines|
      && exists rs :: ListsActiveRules(db.rules, guildId.value, rs) && reply.lines == LinesFor(rs, channelNames)
  {
    if guildId.None? {
      return NotInGuild;
    }
    var rules := db.FindActiveRules(guildId.value);
    if |rules| == 0 {
      return NoActiveRules;
    }
    assert ListsActiveRules(db.rules, guildId.value, rules);
    reply := ActiveRuleList(LinesFor(rules, channelNames), |rules|);
  }
}
