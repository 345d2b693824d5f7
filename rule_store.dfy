/**
 * The channel-rule collection as a map keyed by its unique compound key
 * (serverId, channelId), with the pure operations the bot command, the web
 * routes and the scheduler perform on it: active-rule lookup and count, the
 * free-tier limit, upsert, soft deactivation and the counter bumps.
 */
module RuleStore {
  import opened Records

  datatype RuleKey = RuleKey(serverId: string, channelId: string)

  type Rules = map<RuleKey, ChannelRule>

  function KeyOf(r: ChannelRule): RuleKey {
    RuleKey(r.serverId, r.channelId)
  }

  /**
   * Every rule sits under its own (serverId, channelId), so at most one rule
   * exists per pair; rules have valid hours; primary keys are distinct and
   * below the next key to hand out.
   */
  predicate RulesWellFormed(rules: Rules, nextId: nat) {
    && (forall k :: k in rules ==> KeyOf(rules[k]) == k && ValidRule(rules[k]) && rules[k].id < nextId)
    && (forall k1, k2 :: k1 in rules && k2 in rules && rules[k1].id == rules[k2].id ==> k1 == k2)
  }

  // ---------------------------------------------------------------------
  // Queries
  // ---------------------------------------------------------------------

  /** The rule a message in (serverId, channelId) falls under, if active. */
  function ActiveRule(rules: Rules, serverId: string, channelId: string): (r: Option<ChannelRule>)
    ensures r.Some? <==> RuleKey(serverId, channelId) in rules && rules[RuleKey(serverId, channelId)].isActive
    ensures r.Some? ==> r.value == rules[RuleKey(serverId, channelId)]
  {
    var k := RuleKey(serverId, channelId);
    if k in rules && rules[k].isActive then Some(rules[k]) else None
  }

  function ActiveRulesOf(rules: Rules, serverId: string): set<RuleKey> {
    set k | k in rules && k.serverId == serverId && rules[k].isActive
  }

  function ActiveRuleCount(rules: Rules, serverId: string): nat {
    |ActiveRulesOf(rules, serverId)|
  }

  /** The rule with primary key `ruleId` that belongs to `serverId`. */
  predicate Identifies(rules: Rules, serverId: string, ruleId: nat, k: RuleKey) {
    k in rules && rules[k].id == ruleId && k.serverId == serverId
  }

  /** Primary keys are distinct, so at most one rule answers to (ruleId, serverId). */
  lemma IdentifiesUnique(rules: Rules, nextId: nat, serverId: string, ruleId: nat, k1: RuleKey, k2: RuleKey)
    requires RulesWellFormed(rules, nextId)
    requires Identifies(rules, serverId, ruleId, k1) && Identifies(rules, serverId, ruleId, k2)
    ensures k1 == k2
  {
  }

  // ---------------------------------------------------------------------
  // Subscription tier limit
  // ---------------------------------------------------------------------

  /** Active rules a free (or unknown) server may hold. */
  const FreeRuleLimit: nat := 1

  /** A server with no record counts as free. */
  predicate IsFreeTier(servers: Servers, serverId: string) {
    serverId !in servers || servers[serverId].subscription == Free
  }

  /**
   * The check both rule-creating paths make before they upsert. It counts all
   * of the server's active rules, including one on the channel being set up.
   */
  predicate WithinTierLimit(servers: Servers, rules: Rules, serverId: string) {
    !IsFreeTier(servers, serverId) || ActiveRuleCount(rules, serverId) < FreeRuleLimit
  }

  // ---------------------------------------------------------------------
  // Updates
  // ---------------------------------------------------------------------

  /**
   * `findOneAndUpdate({serverId, channelId}, …, {upsert: true})`: an existing
   * rule keeps its primary key, settings and counters and takes the new name,
   * hours, creation data and `isActive = true`; a missing one is inserted with
   * the schema defaults under the next primary key.
   */
  function Upsert(rules: Rules, nextId: nat, key: RuleKey, channelName: string,
                  hours: int, now: int, createdBy: string): Rules
  {
    if key in rules then
      rules[key := rules[key].(channelName := channelName, expirationHours := hours,
                               isActive := true, createdAt := now, createdBy := createdBy)]
    else
      rules[key := NewChannelRule(nextId, key.serverId, key.channelId, channelName, hours, now, createdBy)]
  }

  function NextIdAfterUpsert(rules: Rules, nextId: nat, key: RuleKey): nat {
    if key in rules then nextId else nextId + 1
  }

  /** Soft delete: the rule stays, inactive. */
  function Deactivate(rules: Rules, key: RuleKey): Rules
    requires key in rules
  {
    rules[key := rules[key].(isActive := false)]
  }

  /** `$inc` of `stats.messagesTracked` and a new `lastActivity`, if the rule exists. */
  function BumpTracked(rules: Rules, key: RuleKey, now: int): Rules {
    if key in rules then
      rules[key := rules[key].(stats := rules[key].stats.(messagesTracked := rules[key].stats.messagesTracked + 1,
                                                            lastActivity := now))]
    else rules
  }

  /** `$inc` of `stats.messagesDeleted` and a new `lastActivity`, if the rule exists. */
  function BumpDeleted(rules: Rules, key: RuleKey, now: int): Rules {
    if key in rules then
      rules[key := rules[key].(stats := rules[key].stats.(messagesDeleted := rules[key].stats.messagesDeleted + 1,
                                                            lastActivity := now))]
    else rules
  }

  // ---------------------------------------------------------------------
  // Properties of the updates
  // ---------------------------------------------------------------------

  /**
   * After an upsert exactly one rule exists for the pair; it is active and
   * carries the new hours; an existing rule keeps its key and counters; no
   * other rule changes.
   */
  lemma UpsertResult(rules: Rules, nextId: nat, key: RuleKey, channelName: string,
                     hours: int, now: int, createdBy: string)
    ensures var rules' := Upsert(rules, nextId, key, channelName, hours, now, createdBy);
      && rules'.Keys == rules.Keys + {key}
      && rules'[key].isActive && rules'[key].expirationHours == hours
      && (key in rules ==> rules'[key].id == rules[key].id && rules'[key].stats == rules[key].stats)
      && (key !in rules ==> rules'[key].stats.messagesTracked == 0 && rules'[key].stats.messagesDeleted == 0)
      && (forall k :: k in rules && k != key ==> rules'[k] == rules[k])
  {
  }

  lemma UpsertWellFormed(rules: Rules, nextId: nat, key: RuleKey, channelName: string,
                         hours: int, now: int, createdBy: string)
    requires RulesWellFormed(rules, nextId) && AllowedHours(hours)
    ensures RulesWellFormed(Upsert(rules, nextId, key, channelName, hours, now, createdBy),
                            NextIdAfterUpsert(rules, nextId, key))
  {
  }

  /**
   * An upsert adds one to the server's active-rule count exactly when the
   * pair had no active rule before; other servers' counts stay.
   */
  lemma {:induction false} UpsertActiveCount(rules: Rules, nextId: nat, key: RuleKey, channelName: string,
                                             hours: int, now: int, createdBy: string, serverId: string)
    ensures ActiveRuleCount(Upsert(rules, nextId, key, channelName, hours, now, createdBy), serverId)
         == ActiveRuleCount(rules, serverId)
            + (if key.serverId == serverId && !(key in rules && rules[key].isActive) then 1 else 0)
  {
    var rules' := Upsert(rules, nextId, key, channelName, hours, now, createdBy);
    if key.serverId == serverId {
      assert ActiveRulesOf(rules', serverId) == ActiveRulesOf(rules, serverId) + {key};
      if key in rules && rules[key].isActive {
        assert ActiveRulesOf(rules, serverId) + {key} == ActiveRulesOf(rules, serverId);
      } else {
        assert key !in ActiveRulesOf(rules, serverId);
      }
    } else {
      assert ActiveRulesOf(rules', serverId) == ActiveRulesOf(rules, serverId);
    }
  }

  /**
   * The free-tier cap: when the limit check passes for a free server, the
   * upsert leaves it with at most one active rule.
   */
  lemma {:induction false} FreeTierCap(servers: Servers, rules: Rules, nextId: nat, key: RuleKey,
                                       channelName: string, hours: int, now: int, createdBy: string)
    requires IsFreeTier(servers, key.serverId) && WithinTierLimit(servers, rules, key.serverId)
    ensures ActiveRuleCount(Upsert(rules, nextId, key, channelName, hours, now, createdBy), key.serverId)
         <= FreeRuleLimit
  {
    UpsertActiveCount(rules, nextId, key, channelName, hours, now, createdBy, key.serverId);
  }

  /** A free server that already has an active rule is refused, on any channel. */
  lemma FreeTierRefusesSecond(servers: Servers, rules: Rules, key: RuleKey)
    requires IsFreeTier(servers, key.serverId)
    requires key in rules && rules[key].isActive
    ensures !WithinTierLimit(servers, rules, key.serverId)
  {
    assert key in ActiveRulesOf(rules, key.serverId);
  }

  /** Deactivating an active rule takes one off its server's count. */
  lemma {:induction false} DeactivateActiveCount(rules: Rules, key: RuleKey, serverId: string)
    requires key in rules
    ensures ActiveRuleCount(Deactivate(rules, key), serverId)
         == ActiveRuleCount(rules, serverId) - (if key.serverId == serverId && rules[key].isActive then 1 else 0)
  {
    var rules' := Deactivate(rules, key);
    if key.serverId == serverId && rules[key].isActive {
      assert ActiveRulesOf(rules', serverId) == ActiveRulesOf(rules, serverId) - {key};
    } else {
      assert ActiveRulesOf(rules', serverId) == ActiveRulesOf(rules, serverId);
    }
  }

  lemma DeactivateWellFormed(rules: Rules, nextId: nat, key: RuleKey)
    requires RulesWellFormed(rules, nextId) && key in rules
    ensures RulesWellFormed(Deactivate(rules, key), nextId)
  {
  }

  /**
   * The counter bumps touch one rule's counters and nothing else, so the set
   * of active rules is the same afterwards.
   */
  lemma {:induction false} BumpsKeepActiveRules(rules: Rules, key: RuleKey, now: int, serverId: string)
    ensures ActiveRulesOf(BumpDeleted(rules, key, now), serverId) == ActiveRulesOf(rules, serverId)
    ensures ActiveRulesOf(BumpTracked(rules, key, now), serverId) == ActiveRulesOf(rules, serverId)
  {
    assert forall k :: k in BumpDeleted(rules, key, now) <==> k in rules;
    assert forall k :: k in BumpTracked(rules, key, now) <==> k in rules;
  }

  lemma BumpsWellFormed(rules: Rules, nextId: nat, key: RuleKey, now: int)
    requires RulesWellFormed(rules, nextId)
    ensures RulesWellFormed(BumpDeleted(rules, key, now), nextId)
    ensures RulesWellFormed(BumpTracked(rules, key, now), nextId)
  {
  }
}
