/**
 * The dashboard's server and channel-rule routes: the server list built
 * from the user's Discord guilds, rule creation (hours check, free-tier
 * limit, upsert) and rule soft-deletion. The active-rule listing is
 * Database.FindActiveRules.
 */
module RuleRoutes {
  import opened Records
  import opened RuleStore
  import opened Database
  import opened Auth

  // ---------------------------------------------------------------------
  // Server list
  // ---------------------------------------------------------------------

  /** A guild as Discord lists it for the signed-in user. */
  datatype UserGuild = UserGuild(id: string, name: string, icon: Option<string>, owner: bool, permissions: nat)

  /** One entry of the server list the dashboard receives. */
  datatype EnrichedServer = EnrichedServer(
    id: string,
    name: string,
    icon: Option<string>,
    botPresent: bool,
    subscription: Subscription,
    stats: ServerStats)

  predicate Manageable(g: UserGuild) {
    HasAdminPermissions(g.permissions, g.owner)
  }

  /** A guild joined with the bot's record for it; no record reads as free with zero counters. */
  function Enrich(g: UserGuild, servers: Servers): EnrichedServer {
    if g.id in servers then EnrichedServer(g.id, g.name, g.icon, true, servers[g.id].subscription, servers[g.id].stats)
    else EnrichedServer(g.id, g.name, g.icon, false, Free, ZeroServerStats)
  }

  /**
   * The list keeps exactly the guilds the user may manage, in their order,
   * each joined with the bot's record for it.
   */
  function EnrichServers(guilds: seq<UserGuild>, servers: Servers): (out: seq<EnrichedServer>)
    ensures |out| <= |guilds|
    ensures forall g :: g in guilds && Manageable(g) ==> Enrich(g, servers) in out
    ensures forall e :: e in out ==> exists g :: g in guilds && Manageable(g) && e == Enrich(g, servers)
    ensures forall e :: e in out ==> (e.botPresent <==> e.id in servers)
    ensures forall e :: e in out && !e.botPresent ==> e.subscription == Free && e.stats == ZeroServerStats
    ensures forall e :: e in out && e.botPresent ==>
      e.subscription == servers[e.id].subscription && e.stats == servers[e.id].stats
  {
    if guilds == [] then []
    else
      var rest := EnrichServers(guilds[1..], servers);
      assert forall g :: g in guilds <==> g == guilds[0] || g in guilds[1..];
      if Manageable(guilds[0]) then [Enrich(guilds[0], servers)] + rest else rest
  }

  // ---------------------------------------------------------------------
  // Rule creation
  // ---------------------------------------------------------------------

  /** The status the create route answers with, before any write. */
  function CreateRuleStatus(servers: Servers, rules: Rules, serverId: string, hours: int): (status: nat)
    ensures status == 400 <==> !AllowedHours(hours)
    ensures status == 402 <==> AllowedHours(hours) && IsFreeTier(servers, serverId)
                               && ActiveRuleCount(rules, serverId) >= FreeRuleLimit
    ensures status in {200, 400, 402}
  {
    if !AllowedHours(hours) then 400
    else if !WithinTierLimit(servers, rules, serverId) then 402
    else 200
  }

  /**
   * An accepted create leaves exactly one rule for the pair, active, with
   * the requested hours, and keeps a free server at one active rule at most;
   * a premium server's count grows by one unless the pair was already active.
   */
  lemma {:induction false} CreateAccepted(servers: Servers, rules: Rules, nextId: nat, serverId: string,
                                          channelId: string, channelName: string, hours: int, now: int, userId: string)
    requires CreateRuleStatus(servers, rules, serverId, hours) == 200
    ensures var rules' := Upsert(rules, nextId, RuleKey(serverId, channelId), channelName, hours, now, userId);
      && ActiveRule(rules', serverId, channelId).Some?
      && ActiveRule(rules', serverId, channelId).value.expirationHours == hours
      && (IsFreeTier(servers, serverId) ==> ActiveRuleCount(rules', serverId) == FreeRuleLimit)
  {
    var key := RuleKey(serverId, channelId);
    UpsertResult(rules, nextId, key, channelName, hours, now, userId);
    UpsertActiveCount(rules, nextId, key, channelName, hours, now, userId, serverId);
    if IsFreeTier(servers, serverId) {
      assert key !in ActiveRulesOf(rules, serverId);
    }
  }

  /**
   * `POST /:serverId/channels`: 400 for hours outside the enumeration, 402
   * for a free or unknown server that already has an active rule, otherwise
   * the upsert, answering with the stored rule. A refusal writes nothing.
   */
  method CreateRule(db: Database, serverId: string, channelId: string, channelName: string,
                    hours: int, userId: string, now: int) returns (status: nat, rule: Option<ChannelRule>)
    requires db.Valid()
    modifies db
    ensures db.Valid()
    ensures status == CreateRuleStatus(old(db.servers), old(db.rules), serverId, hours)
    ensures status == 200 ==>
      && db.rules == Upsert(old(db.rules), old(db.nextRuleId), RuleKey(serverId, channelId), channelName, hours, now, userId)
      && db.nextRuleId == NextIdAfterUpsert(old(db.rules), old(db.nextRuleId), RuleKey(serverId, channelId))
      && rule == Some(db.rules[RuleKey(serverId, channelId)])
    ensures status != 200 ==> db.rules == old(db.rules) && db.nextRuleId == old(db.nextRuleId) && rule == None
    ensures db.messages == old(db.messages) && db.servers == old(db.servers)
  {
    if hours !in [1, 6, 24, 168] {
      return 400, None;
    }
    if serverId !in db.servers || db.servers[serverId].subscription == Free {
      var existingRules := ActiveRuleCount(db.rules, serverId);
      if existingRules >= 1 {
        return 402, None;
      }
    }
    var key := RuleKey(serverId, channelId);
    db.UpsertRule(key, channelName, hours, now, userId);
    UpsertResult(old(db.rules), old(db.nextRuleId), key, channelName, hours, now, userId);
    status, rule := 200, Some(db.rules[key]);
  }

  // ---------------------------------------------------------------------
  // Rule deletion
  // ---------------------------------------------------------------------

  /**
   * `DELETE /:serverId/channels/:ruleId`: the rule with that primary key in
   * that server is set inactive (whether or not it was active) and the route
   * answers 200; with no such rule it answers 404 and writes nothing.
   */
  method DeleteRule(db: Database, serverId: string, ruleId: nat) returns (status: nat)
    requires db.Valid()
    modifies db
    ensures db.Valid()
    ensures status == 200 <==> exists k :: Identifies(old(db.rules), serverId, ruleId, k)
    ensures status == 200 ==> exists k :: Identifies(old(db.rules), serverId, ruleId, k) &&
                                          db.rules == Deactivate(old(db.rules), k)
    ensures status != 200 ==> status == 404 && db.rules == old(db.rules)
    ensures db.messages == old(db.messages) && db.servers == old(db.servers) && db.nextRuleId == old(db.nextRuleId)
  {
    var key := db.FindRuleById(serverId, ruleId);
    if key.None? {
      return 404;
    }
    db.DeactivateRule(key.value);
    status := 200;
  }

  /**
   * Deleting by primary key turns off one rule of that server only: the
   * server's active count drops by one if that rule was active, and every
   * other rule, in this server or another, is untouched.
   */
  lemma {:induction false} DeleteTouchesOneRule(rules: Rules, nextId: nat, serverId: string, ruleId: nat, k: RuleKey)
    requires RulesWellFormed(rules, nextId) && Identifies(rules, serverId, ruleId, k)
    ensures Deactivate(rules, k).Keys == rules.Keys
    ensures forall k' :: k' in rules && k' != k ==> Deactivate(rules, k)[k'] == rules[k']
    ensures forall k' :: Identifies(rules, serverId, ruleId, k') ==> k' == k
    ensures ActiveRuleCount(Deactivate(rules, k), serverId)
         == ActiveRuleCount(rules, serverId) - (if rules[k].isActive then 1 else 0)
  {
    DeactivateActiveCount(rules, k, serverId);
    forall k' | Identifies(rules, serverId, ruleId, k') ensures k' == k {
      IdentifiesUnique(rules, nextId, serverId, ruleId, k, k');
    }
  }
}
