/**
 * Message ingestion: the handler for every message the bot sees. Messages
 * from bots, outside a guild or without readable content are ignored;
 * messages in a channel with an active rule are recorded with their
 * deadline, scheduled for deletion and counted on the rule.
 */
module Ingestion {
  import opened Records
  import opened MessageStore
  import opened RuleStore
  import opened Database
  import opened Scheduler

  /** What the gateway delivers about a new message; `guildId` is absent in DMs. */
  datatype IncomingMessage = IncomingMessage(
    id: string,
    channelId: string,
    guildId: Option<string>,
    authorId: string,
    authorUsername: string,
    authorIsBot: bool,
    content: string)

  datatype IngestOutcome =
    | Skipped              // bot author, DM, or no content
    | NoActiveRule         // the channel has no active rule
    | SaveFailed           // the insert was refused: duplicate id or schema violation
    | Tracked(expiresAt: int)

  /** The stored excerpt: the first ExcerptLimit characters. */
  function Excerpt(content: string): (e: string)
    ensures e <= content && |e| <= ExcerptLimit
    ensures |e| == if |content| <= ExcerptLimit then |content| else ExcerptLimit
  {
    if |content| <= ExcerptLimit then content else content[..ExcerptLimit]
  }

  /** The deadline a rule gives a message seen at `now`. */
  function ExpiryFor(now: int, hours: int): (e: int)
    ensures AllowedHours(hours) ==> now + HourMs <= e <= now + 7 * DayMs
  {
    now + hours * HourMs
  }

  predicate Filtered(msg: IncomingMessage) {
    msg.authorIsBot || msg.guildId.None? || msg.content == ""
  }

  /** The record the handler builds for a message under a rule of `hours`. */
  function RecordFor(msg: IncomingMessage, serverId: string, now: int, hours: int): TrackedMessage {
    NewTrackedMessage(msg.id, msg.channelId, serverId, msg.authorId, msg.authorUsername,
                      Excerpt(msg.content), now, ExpiryFor(now, hours))
  }

  /** The handler's outcome on the tables as they are when the message arrives. */
  function IngestDecision(t: Tables, msg: IncomingMessage, now: int): IngestOutcome {
    if Filtered(msg) then Skipped
    else
      match ActiveRule(t.rules, msg.guildId.value, msg.channelId)
      case None => NoActiveRule
      case Some(rule) =>
        var rec := RecordFor(msg, msg.guildId.value, now, rule.expirationHours);
        if msg.id in t.messages || !ValidMessage(rec) then SaveFailed else Tracked(rec.expiresAt)
  }

  /** A tracked message is inserted and its rule's tracked counter bumped; otherwise nothing changes. */
  function IngestEffect(t: Tables, msg: IncomingMessage, now: int): Tables {
    if !IngestDecision(t, msg, now).Tracked? then t
    else
      var key := RuleKey(msg.guildId.value, msg.channelId);
      var rec := RecordFor(msg, msg.guildId.value, now, t.rules[key].expirationHours);
      Tables(t.messages[msg.id := rec], BumpTracked(t.rules, key, now), t.servers)
  }

  /**
   * Only a message from a person, in a guild channel with an active rule,
   * with content, is ever tracked; everything else leaves the tables alone.
   */
  lemma OnlyCoveredTracked(t: Tables, msg: IncomingMessage, now: int)
    ensures IngestDecision(t, msg, now).Tracked? <==>
      && !Filtered(msg)
      && ActiveRule(t.rules, msg.guildId.value, msg.channelId).Some?
      && msg.id !in t.messages
      && ValidMessage(RecordFor(msg, msg.guildId.value, now,
                                ActiveRule(t.rules, msg.guildId.value, msg.channelId).value.expirationHours))
    ensures !IngestDecision(t, msg, now).Tracked? ==> IngestEffect(t, msg, now) == t
  {
  }

  /**
   * The record of a tracked message: pending, stored under its own id with
   * an excerpt of at most 100 characters taken from the front of the
   * content, due exactly `expirationHours` after arrival and not before.
   */
  lemma {:induction false} TrackedRecord(t: Tables, nextRuleId: nat, msg: IncomingMessage, now: int)
    requires WellFormed(t, nextRuleId)
    requires IngestDecision(t, msg, now).Tracked?
    ensures var key := RuleKey(msg.guildId.value, msg.channelId);
      var m := IngestEffect(t, msg, now).messages[msg.id];
      && Pending(m) && m.serverId == msg.guildId.value && m.channelId == msg.channelId
      && m.content <= msg.content && |m.content| <= ExcerptLimit
      && m.expiresAt == IngestDecision(t, msg, now).expiresAt
      && m.expiresAt == now + t.rules[key].expirationHours * HourMs
      && now + HourMs <= m.expiresAt <= now + 7 * DayMs
      && msg.id !in DueIds(IngestEffect(t, msg, now).messages, now)
      && msg.id in DueIds(IngestEffect(t, msg, now).messages, m.expiresAt)
  {
    var key := RuleKey(msg.guildId.value, msg.channelId);
    assert ValidRule(t.rules[key]);
  }

  /**
   * Tracking adds the new record to its server's count, leaves the deleted
   * count and every existing record as they were, and adds one to the rule's
   * tracked counter.
   */
  lemma {:induction false} TrackedCounts(t: Tables, msg: IncomingMessage, now: int)
    requires IngestDecision(t, msg, now).Tracked?
    ensures var t' := IngestEffect(t, msg, now);
      var s := msg.guildId.value;
      var key := RuleKey(s, msg.channelId);
      && Evolves(t.messages, t'.messages)
      && |TrackedOf(t'.messages, s)| == |TrackedOf(t.messages, s)| + 1
      && |DeletedOf(t'.messages, s)| == |DeletedOf(t.messages, s)|
      && t'.rules[key].stats.messagesTracked == t.rules[key].stats.messagesTracked + 1
      && ActiveRulesOf(t'.rules, s) == ActiveRulesOf(t.rules, s)
  {
    var s := msg.guildId.value;
    var key := RuleKey(s, msg.channelId);
    var rec := RecordFor(msg, s, now, t.rules[key].expirationHours);
    InsertCountsOnce(t.messages, msg.id, rec, s);
    BumpsKeepActiveRules(t.rules, key, now, s);
  }

  lemma IngestWellFormed(t: Tables, nextRuleId: nat, msg: IncomingMessage, now: int)
    requires WellFormed(t, nextRuleId)
    ensures WellFormed(IngestEffect(t, msg, now), nextRuleId)
  {
    if IngestDecision(t, msg, now).Tracked? {
      BumpsWellFormed(t.rules, nextRuleId, RuleKey(msg.guildId.value, msg.channelId), now);
    }
  }

  /**
   * The handler: filter, look up the active rule, insert the record,
   * register its timer, bump the rule's tracked counter.
   */
  method HandleMessageCreate(sched: MessageScheduler, db: Database, msg: IncomingMessage, now: int, gw: Gateway)
    returns (outcome: IngestOutcome)
    requires db.Valid()
    modifies sched, db
    ensures db.Valid() && db.nextRuleId == old(db.nextRuleId)
    ensures outcome == IngestDecision(old(db.Snapshot()), msg, now)
    ensures db.Snapshot() == IngestEffect(old(db.Snapshot()), msg, now)
    ensures sched.jobs == if outcome.Tracked? then old(sched.jobs)[msg.id := outcome.expiresAt] else old(sched.jobs)
    ensures sched.armed == if outcome.Tracked? then old(sched.armed) + {msg.id} else old(sched.armed)
  {
    IngestWellFormed(db.Snapshot(), db.nextRuleId, msg, now);
    if msg.authorIsBot || msg.guildId.None? {
      return Skipped;
    }
    if msg.content == "" {
      return Skipped;
    }
    var serverId := msg.guildId.value;
    var rule := ActiveRule(db.rules, serverId, msg.channelId);
    if rule.None? {
      return NoActiveRule;
    }
    assert ValidRule(rule.value);
    var expiresAt := ExpiryFor(now, rule.value.expirationHours);
    var tracked := NewTrackedMessage(msg.id, msg.channelId, serverId, msg.authorId, msg.authorUsername,
                                     Excerpt(msg.content), now, expiresAt);
    if msg.id in db.messages || !ValidMessage(tracked) {
      return SaveFailed;
    }
    db.messages := db.messages[msg.id := tracked];
    var fired := sched.ScheduleMessageDeletion(db, msg.id, expiresAt, now, gw);
    db.rules := BumpTracked(db.rules, RuleKey(serverId, msg.channelId), now);
    outcome := Tracked(expiresAt);
  }
}
