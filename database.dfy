/**
 * The three collections together, as the in-place state every handler
 * reads and writes, and the two queries that return more than one record:
 * the sweep's due-message query and the newest-first active-rule listing.
 */
module Database {
  import opened Records
  import opened MessageStore
  import opened RuleStore

  /** A snapshot of the three collections. */
  datatype Tables = Tables(messages: Messages, rules: Rules, servers: Servers)

  predicate WellFormed(t: Tables, nextRuleId: nat) {
    MessagesWellFormed(t.messages) && RulesWellFormed(t.rules, nextRuleId) && ServersKeyed(t.servers)
  }

  function Min(a: int, b: int): int {
    if a <= b then a else b
  }

  /**
   * What `find({expiresAt: {$lte: now}, isDeleted: false}).limit(limit)`
   * may return: distinct due records, as many as the limit allows. The query
   * has no sort, so which ones is left open.
   */
  predicate IsDueBatch(msgs: Messages, now: int, limit: nat, batch: seq<string>) {
    && (forall i :: 0 <= i < |batch| ==> batch[i] in DueIds(msgs, now))
    && (forall i, j :: 0 <= i < j < |batch| ==> batch[i] != batch[j])
    && |batch| == Min(limit, |DueIds(msgs, now)|)
  }

  /** Non-increasing `createdAt`: the order of `.sort({createdAt: -1})`. */
  predicate NewestFirst(rs: seq<ChannelRule>) {
    forall i, j :: 0 <= i < j < |rs| ==> rs[i].createdAt >= rs[j].createdAt
  }

  /**
   * `rs` lists the server's active rules: as many entries as there are
   * active rules, each entry the stored rule of an active key, and every
   * active rule present.
   */
  predicate ListsActiveRules(rules: Rules, serverId: string, rs: seq<ChannelRule>) {
    && |rs| == ActiveRuleCount(rules, serverId)
    && (forall r :: r in rs ==> KeyOf(r) in ActiveRulesOf(rules, serverId) && rules[KeyOf(r)] == r)
    && (forall k :: k in ActiveRulesOf(rules, serverId) ==> rules[k] in rs)
  }

  lemma {:induction false} SeqSetCard<T>(s: seq<T>)
    ensures |set x | x in s| <= |s|
  {
    if s != [] {
      SeqSetCard(s[1..]);
      assert (set x | x in s) == {s[0]} + (set x | x in s[1..]);
    }
  }

  /** A sequence with as many distinct elements as entries repeats none. */
  lemma {:induction false} FullSetDistinct<T>(s: seq<T>)
    requires |set x | x in s| >= |s|
    ensures forall i, j :: 0 <= i < j < |s| ==> s[i] != s[j]
  {
    if s != [] {
      var t := s[1..];
      SeqSetCard(t);
      assert (set x | x in s) == {s[0]} + (set x | x in t);
      assert s[0] !in (set x | x in t);
      FullSetDistinct(t);
      forall i, j | 0 <= i < j < |s| ensures s[i] != s[j] {
        assert s[j] == t[j - 1];
        if i > 0 {
          assert s[i] == t[i - 1];
        }
      }
    }
  }

  lemma {:induction false} KeyImageCard(e: set<ChannelRule>)
    ensures |set r | r in e :: KeyOf(r)| <= |e|
  {
    if e != {} {
      var r :| r in e;
      KeyImageCard(e - {r});
      assert (set x | x in e :: KeyOf(x)) == (set x | x in e - {r} :: KeyOf(x)) + {KeyOf(r)};
    }
  }

  /**
   * A listing of the active rules holds each of them exactly once: no entry
   * repeats, so no two entries are the same rule.
   */
  lemma {:induction false} ListingOnePerRule(rules: Rules, nextId: nat, serverId: string, rs: seq<ChannelRule>)
    requires RulesWellFormed(rules, nextId) && ListsActiveRules(rules, serverId, rs)
    ensures forall i, j :: 0 <= i < j < |rs| ==> rs[i] != rs[j]
  {
    var e := set r | r in rs;
    var active := ActiveRulesOf(rules, serverId);
    assert active <= (set r | r in e :: KeyOf(r)) by {
      forall k | k in active ensures k in (set r | r in e :: KeyOf(r)) {
        assert rules[k] in e && KeyOf(rules[k]) == k;
      }
    }
    SubsetCard(active, set r | r in e :: KeyOf(r));
    KeyImageCard(e);
    FullSetDistinct(rs);
  }

  /** Places r in front of the first rule that is not newer than it. */
  function InsertNewestFirst(r: ChannelRule, rs: seq<ChannelRule>): (out: seq<ChannelRule>)
    ensures |out| == |rs| + 1
    ensures forall x :: x in out <==> x == r || x in rs
    ensures NewestFirst(rs) ==> NewestFirst(out)
  {
    if rs == [] || rs[0].createdAt <= r.createdAt then [r] + rs
    else
      var tail := InsertNewestFirst(r, rs[1..]);
      assert NewestFirst(rs) ==> forall x :: x in tail ==> x.createdAt <= rs[0].createdAt;
      [rs[0]] + tail
  }

  class Database {
    var messages: Messages
    var rules: Rules
    var servers: Servers
    /** The next primary key the rule collection hands out on insert. */
    var nextRuleId: nat

    function Snapshot(): Tables
      reads this
    {
      Tables(messages, rules, servers)
    }

    ghost predicate Valid()
      reads this
    {
      WellFormed(Snapshot(), nextRuleId)
    }

    constructor ()
      ensures Valid()
      ensures messages == map[] && rules == map[] && servers == map[]
    {
      messages, rules, servers, nextRuleId := map[], map[], map[], 0;
    }

    /** The sweep's query: up to `limit` due records, in no stated order. */
    method FindDue(now: int, limit: nat) returns (batch: seq<string>)
      ensures IsDueBatch(messages, now, limit, batch)
    {
      var due := DueIds(messages, now);
      var remaining := due;
      batch := [];
      while |batch| < limit && remaining != {}
        invariant remaining <= due
        invariant forall i :: 0 <= i < |batch| ==> batch[i] in due && batch[i] !in remaining
        invariant forall i, j :: 0 <= i < j < |batch| ==> batch[i] != batch[j]
        invariant |batch| + |remaining| == |due|
        invariant |batch| <= limit
        decreases remaining
      {
        var id :| id in remaining;
        batch := batch + [id];
        remaining := remaining - {id};
      }
    }

    /**
     * `find({serverId, isActive: true}).sort({createdAt: -1})`: every active
     * rule of the server exactly once, nothing else, newest first.
     */
    method FindActiveRules(serverId: string) returns (found: seq<ChannelRule>)
      requires Valid()
      ensures |found| == ActiveRuleCount(rules, serverId)
      ensures forall r :: r in found ==> KeyOf(r) in ActiveRulesOf(rules, serverId) && rules[KeyOf(r)] == r
      ensures forall k :: k in ActiveRulesOf(rules, serverId) ==> rules[k] in found
      ensures NewestFirst(found)
    {
      var active := ActiveRulesOf(rules, serverId);
      var remaining := active;
      ghost var picked: set<RuleKey> := {};
      found := [];
      while remaining != {}
        invariant remaining !! picked && remaining + picked == active
        invariant |found| == |picked|
        invariant forall r :: r in found ==> KeyOf(r) in picked && rules[KeyOf(r)] == r
        invariant forall k :: k in picked ==> rules[k] in found
        invariant NewestFirst(found)
        decreases remaining
      {
        var k :| k in remaining;
        found := InsertNewestFirst(rules[k], found);
        remaining := remaining - {k};
        picked := picked + {k};
      }
    }

    /** Looks a rule up by primary key within one server. */
    method FindRuleById(serverId: string, ruleId: nat) returns (key: Option<RuleKey>)
      ensures key.Some? ==> Identifies(rules, serverId, ruleId, key.value)
      ensures key.None? ==> forall k :: k in rules ==> !Identifies(rules, serverId, ruleId, k)
    {
      var remaining := rules.Keys;
      while remaining != {}
        invariant remaining <= rules.Keys
        invariant forall k :: k in rules && k !in remaining ==> !Identifies(rules, serverId, ruleId, k)
        decreases remaining
      {
        var k :| k in remaining;
        if rules[k].id == ruleId && k.serverId == serverId {
          return Some(k);
        }
        remaining := remaining - {k};
      }
      return None;
    }

    /** The `findOneAndUpdate(…, {upsert: true})` on (serverId, channelId). */
    method UpsertRule(key: RuleKey, channelName: string, hours: int, now: int, createdBy: string)
      requires Valid() && AllowedHours(hours)
      modifies this
      ensures Valid()
      ensures rules == Upsert(old(rules), old(nextRuleId), key, channelName, hours, now, createdBy)
      ensures nextRuleId == NextIdAfterUpsert(old(rules), old(nextRuleId), key)
      ensures messages == old(messages) && servers == old(servers)
    {
      UpsertWellFormed(rules, nextRuleId, key, channelName, hours, now, createdBy);
      var next := NextIdAfterUpsert(rules, nextRuleId, key);
      rules := Upsert(rules, nextRuleId, key, channelName, hours, now, createdBy);
      nextRuleId := next;
    }

    /** Sets `isActive = false` on one rule. */
    method DeactivateRule(key: RuleKey)
      requires Valid() && key in rules
      modifies this
      ensures Valid()
      ensures rules == Deactivate(old(rules), key)
      ensures messages == old(messages) && servers == old(servers) && nextRuleId == old(nextRuleId)
    {
      DeactivateWellFormed(rules, nextRuleId, key);
      rules := Deactivate(rules, key);
    }
  }
}
