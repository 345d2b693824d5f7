/**
 * The message scheduler: the in-memory timer table, the deletion executor,
 * the per-minute reconciliation sweep, the server-stats recount and the
 * daily retention purge.
 *
 * Discord is modelled by a Gateway snapshot: which guilds and text channels
 * the bot can see, which messages a fetch returns, and which of those refuse
 * to be deleted. Timer firing, sweep runs and purge runs are explicit method
 * calls that receive the current instant.
 */
module Scheduler {
  import opened Records
  import opened MessageStore
  import opened RuleStore
  import opened Database

  /** How many due records one sweep run processes at most. */
  const SweepBatchLimit: nat := 100

  datatype ChannelRef = ChannelRef(guildId: string, channelId: string)

  datatype Gateway = Gateway(
    guilds: set<string>,
    textChannels: set<ChannelRef>,
    present: set<string>,
    undeletable: set<string>)

  /**
   * How one call of the executor ends: no pending record, one of the three
   * early returns that leave the record pending (guild not cached, channel
   * missing or not text-based, the delete call throwing), or one of the two
   * completions (message deleted, or already gone).
   */
  datatype DeleteOutcome =
    | NoPendingRecord
    | GuildUnavailable
    | ChannelUnavailable
    | DeleteRejected
    | RemovedFromDiscord
    | AlreadyGone

  predicate Completed(o: DeleteOutcome) {
    o == RemovedFromDiscord || o == AlreadyGone
  }

  /** What Discord does with a pending record's message. */
  function Probe(gw: Gateway, id: string, m: TrackedMessage): DeleteOutcome {
    if m.serverId !in gw.guilds then GuildUnavailable
    else if ChannelRef(m.serverId, m.channelId) !in gw.textChannels then ChannelUnavailable
    else if id in gw.present then (if id in gw.undeletable then DeleteRejected else RemovedFromDiscord)
    else AlreadyGone
  }

  /** The executor's outcome: first the pending-record lookup, then Discord. */
  function Classify(msgs: Messages, id: string, gw: Gateway): (o: DeleteOutcome)
    ensures o == NoPendingRecord <==> id !in msgs || msgs[id].isDeleted
    ensures Completed(o) ==> id in msgs && !msgs[id].isDeleted
  {
    if id !in msgs || msgs[id].isDeleted then NoPendingRecord else Probe(gw, id, msgs[id])
  }

  // ---------------------------------------------------------------------
  // Server statistics
  // ---------------------------------------------------------------------

  /** The three server counters, recounted from the records. */
  function Recount(msgs: Messages, rules: Rules, serverId: string): ServerStats {
    ServerStats(|TrackedOf(msgs, serverId)|, |DeletedOf(msgs, serverId)|, ActiveRuleCount(rules, serverId))
  }

  /** Overwrites (not increments) the server's counters, if the server exists. */
  function RefreshStats(servers: Servers, msgs: Messages, rules: Rules, serverId: string): Servers {
    if serverId in servers then servers[serverId := servers[serverId].(stats := Recount(msgs, rules, serverId))]
    else servers
  }

  /** After a refresh the server's counters are the recounted ones, deleted within tracked. */
  lemma RefreshAgrees(servers: Servers, msgs: Messages, rules: Rules, serverId: string)
    requires serverId in servers
    ensures var s := RefreshStats(servers, msgs, rules, serverId)[serverId].stats;
      && s == Recount(msgs, rules, serverId)
      && s.totalMessagesDeleted <= s.totalMessagesTracked
  {
    DeletedWithinTracked(msgs, serverId);
  }

  // ---------------------------------------------------------------------
  // The deletion executor as a function of the tables
  // ---------------------------------------------------------------------

  /**
   * A completed deletion marks the record expired, bumps its channel rule's
   * deleted counter and recounts its server; any other outcome changes
   * nothing.
   */
  function DeleteEffect(t: Tables, id: string, now: int, gw: Gateway): Tables {
    if !Completed(Classify(t.messages, id, gw)) then t
    else
      var m := t.messages[id];
      var msgs := t.messages[id := Expire(m, now)];
      var rules := BumpDeleted(t.rules, RuleKey(m.serverId, m.channelId), now);
      Tables(msgs, rules, RefreshStats(t.servers, msgs, rules, m.serverId))
  }

  /** Outcomes other than a completion leave every table as it was. */
  lemma FailedDeleteChangesNothing(t: Tables, id: string, now: int, gw: Gateway)
    requires !Completed(Classify(t.messages, id, gw))
    ensures DeleteEffect(t, id, now, gw) == t
  {
  }

  /**
   * When Discord is unavailable the record stays pending and stays due, so a
   * later sweep can still find it.
   */
  lemma UnavailableStaysDue(t: Tables, id: string, now: int, gw: Gateway, at: int)
    requires Classify(t.messages, id, gw) in {GuildUnavailable, ChannelUnavailable, DeleteRejected}
    requires at >= t.messages[id].expiresAt
    ensures DeleteEffect(t, id, now, gw) == t
    ensures id in DueIds(DeleteEffect(t, id, now, gw).messages, at)
  {
  }

  /**
   * Idempotence: once a deletion has completed, another call on the same id,
   * at any instant and whatever Discord then says, finds no pending record
   * and changes nothing.
   */
  lemma DeleteIdempotent(t: Tables, id: string, now: int, gw: Gateway, later: int, gw': Gateway)
    requires Completed(Classify(t.messages, id, gw))
    ensures Classify(DeleteEffect(t, id, now, gw).messages, id, gw') == NoPendingRecord
    ensures DeleteEffect(DeleteEffect(t, id, now, gw), id, later, gw') == DeleteEffect(t, id, now, gw)
  {
  }

  /**
   * A completed deletion: the record ends deleted at `now` for reason
   * `expired` with nothing else about it changed; the channel rule's deleted
   * counter grows by exactly one; the server's counters equal the recount,
   * whose deleted count grew by exactly one while its tracked count stayed.
   */
  lemma {:induction false} DeleteCompleted(t: Tables, id: string, now: int, gw: Gateway)
    requires Completed(Classify(t.messages, id, gw))
    ensures var t' := DeleteEffect(t, id, now, gw);
      var m := t.messages[id];
      var key := RuleKey(m.serverId, m.channelId);
      && t'.messages == t.messages[id := Expire(m, now)]
      && Evolves(t.messages, t'.messages)
      && (key in t.rules ==>
            (key in t'.rules &&
             t'.rules[key].stats.messagesDeleted == t.rules[key].stats.messagesDeleted + 1))
      && (m.serverId in t.servers ==>
            (m.serverId in t'.servers &&
             t'.servers[m.serverId].stats == Recount(t'.messages, t'.rules, m.serverId) &&
             t'.servers[m.serverId].stats.totalMessagesDeleted == |DeletedOf(t.messages, m.serverId)| + 1 &&
             t'.servers[m.serverId].stats.totalMessagesTracked == |TrackedOf(t.messages, m.serverId)| &&
             t'.servers[m.serverId].stats.totalMessagesDeleted <= t'.servers[m.serverId].stats.totalMessagesTracked))
  {
    var m := t.messages[id];
    var t' := DeleteEffect(t, id, now, gw);
    ExpireCountsOnce(t.messages, id, now, m.serverId);
    ExpireEvolves(t.messages, id, now);
    if m.serverId in t.servers {
      RefreshAgrees(t.servers, t'.messages, t'.rules, m.serverId);
    }
  }

  /**
   * Deleting a record of another server leaves this server's recount as it
   * was: the record counts and the active rules are unaffected.
   */
  lemma {:induction false} RecountUnaffected(t: Tables, id: string, now: int, gw: Gateway, serverId: string)
    requires Completed(Classify(t.messages, id, gw)) && t.messages[id].serverId != serverId
    ensures Recount(DeleteEffect(t, id, now, gw).messages, DeleteEffect(t, id, now, gw).rules, serverId)
         == Recount(t.messages, t.rules, serverId)
  {
    var m := t.messages[id];
    ExpireCountsOnce(t.messages, id, now, serverId);
    BumpsKeepActiveRules(t.rules, RuleKey(m.serverId, m.channelId), now, serverId);
  }

  /**
   * Deletion reads only the records: two stores with the same records but
   * different rules (one rule deactivated, say) delete alike.
   */
  lemma RulesIrrelevant(t: Tables, t': Tables, id: string, now: int, gw: Gateway)
    requires t'.messages == t.messages
    ensures DeleteEffect(t', id, now, gw).messages == DeleteEffect(t, id, now, gw).messages
  {
  }

  lemma DeleteWellFormed(t: Tables, nextRuleId: nat, id: string, now: int, gw: Gateway)
    requires WellFormed(t, nextRuleId)
    ensures WellFormed(DeleteEffect(t, id, now, gw), nextRuleId)
  {
    if Completed(Classify(t.messages, id, gw)) {
      var m := t.messages[id];
      BumpsWellFormed(t.rules, nextRuleId, RuleKey(m.serverId, m.channelId), now);
    }
  }

  // ---------------------------------------------------------------------
  // The sweep as a function of the tables
  // ---------------------------------------------------------------------

  /** The executor run on each id of the batch, first to last. */
  function SweepEffect(t: Tables, batch: seq<string>, now: int, gw: Gateway): Tables
    decreases |batch|
  {
    if batch == [] then t
    else DeleteEffect(SweepEffect(t, batch[..|batch| - 1], now, gw), batch[|batch| - 1], now, gw)
  }

  /** The ids of the batch whose deletion completes, judged on the records before the run. */
  function SettledBy(msgs: Messages, batch: seq<string>, gw: Gateway): set<string> {
    set id | id in batch && Completed(Classify(msgs, id, gw))
  }

  predicate Distinct(batch: seq<string>) {
    forall i, j :: 0 <= i < j < |batch| ==> batch[i] != batch[j]
  }

  lemma FrontMembership(batch: seq<string>, x: string)
    requires batch != []
    ensures x in batch <==> x in batch[..|batch| - 1] || x == batch[|batch| - 1]
  {
    assert batch == batch[..|batch| - 1] + [batch[|batch| - 1]];
  }

  /** Dropping the last id of a distinct batch leaves a distinct batch without it. */
  lemma DistinctSplit(batch: seq<string>)
    requires Distinct(batch) && batch != []
    ensures Distinct(batch[..|batch| - 1]) && batch[|batch| - 1] !in batch[..|batch| - 1]
  {
    var n := |batch| - 1;
    assert forall j :: 0 <= j < n ==> batch[..n][j] == batch[j];
  }

  /** A sweep leaves records whose id is not in its batch alone. */
  lemma {:induction false} SweepLeavesOthers(t: Tables, batch: seq<string>, now: int, gw: Gateway, id: string)
    requires id !in batch
    ensures id in SweepEffect(t, batch, now, gw).messages <==> id in t.messages
    ensures id in t.messages ==> SweepEffect(t, batch, now, gw).messages[id] == t.messages[id]
    decreases |batch|
  {
    if batch != [] {
      var front := batch[..|batch| - 1];
      FrontMembership(batch, id);
      SweepLeavesOthers(t, front, now, gw, id);
    }
  }

  /**
   * The effect of a sweep on the records: every batch record whose deletion
   * completes is marked expired at `now`, every other record is untouched,
   * no record appears or disappears.
   */
  lemma {:induction false} SweepSettles(t: Tables, batch: seq<string>, now: int, gw: Gateway)
    requires Distinct(batch)
    ensures SweepEffect(t, batch, now, gw).messages.Keys == t.messages.Keys
    ensures forall id :: id in t.messages ==>
      SweepEffect(t, batch, now, gw).messages[id] ==
        (if id in SettledBy(t.messages, batch, gw) then Expire(t.messages[id], now) else t.messages[id])
    decreases |batch|
  {
    if batch != [] {
      var n := |batch| - 1;
      var front, last := batch[..n], batch[n];
      DistinctSplit(batch);
      SweepSettles(t, front, now, gw);
      SweepLeavesOthers(t, front, now, gw, last);
      var mid := SweepEffect(t, front, now, gw);
      assert Classify(mid.messages, last, gw) == Classify(t.messages, last, gw);
      forall id | id in t.messages
        ensures id in SettledBy(t.messages, batch, gw) <==>
          id in SettledBy(t.messages, front, gw) || (id == last && Completed(Classify(t.messages, last, gw)))
      {
        FrontMembership(batch, id);
      }
    }
  }

  /** A sweep moves records only from pending to deleted. */
  lemma SweepEvolves(t: Tables, batch: seq<string>, now: int, gw: Gateway)
    requires Distinct(batch)
    ensures Evolves(t.messages, SweepEffect(t, batch, now, gw).messages)
  {
    SweepSettles(t, batch, now, gw);
  }

  lemma {:induction false} DistinctCard(batch: seq<string>)
    requires Distinct(batch)
    ensures |set id | id in batch| == |batch|
    decreases |batch|
  {
    if batch != [] {
      var n := |batch| - 1;
      var front := batch[..n];
      DistinctSplit(batch);
      DistinctCard(front);
      assert (set id | id in batch) == (set id | id in front) + {batch[n]} by {
        forall id ensures id in batch <==> id in front || id == batch[n] {
          FrontMembership(batch, id);
        }
      }
    }
  }

  /**
   * Progress of one sweep run: when Discord can complete every due deletion,
   * the run retires its whole batch, so the due set shrinks by
   * min(100, |due|) and a backlog of at most 100 is cleared in one run.
   */
  lemma {:induction false} SweepDrainsDue(t: Tables, batch: seq<string>, now: int, gw: Gateway)
    requires IsDueBatch(t.messages, now, SweepBatchLimit, batch)
    requires forall id :: id in DueIds(t.messages, now) ==> Completed(Probe(gw, id, t.messages[id]))
    ensures DueIds(SweepEffect(t, batch, now, gw).messages, now) == DueIds(t.messages, now) - (set id | id in batch)
    ensures |DueIds(SweepEffect(t, batch, now, gw).messages, now)|
         == |DueIds(t.messages, now)| - Min(SweepBatchLimit, |DueIds(t.messages, now)|)
    ensures |DueIds(t.messages, now)| <= SweepBatchLimit ==> DueIds(SweepEffect(t, batch, now, gw).messages, now) == {}
  {
    var msgs := t.messages;
    var msgs' := SweepEffect(t, batch, now, gw).messages;
    var taken := set id | id in batch;
    SweepSettles(t, batch, now, gw);
    assert SettledBy(msgs, batch, gw) == taken by {
      forall id | id in taken ensures id in SettledBy(msgs, batch, gw) {
        var j :| 0 <= j < |batch| && batch[j] == id;
        assert id in DueIds(msgs, now);
      }
    }
    assert taken <= DueIds(msgs, now) by {
      forall id | id in taken ensures id in DueIds(msgs, now) {
        var j :| 0 <= j < |batch| && batch[j] == id;
      }
    }
    assert DueIds(msgs', now) == DueIds(msgs, now) - taken;
    DistinctCard(batch);
  }

  /**
   * After a run, every server whose record the run deleted shows counters
   * equal to the recount of the final records and rules.
   */
  lemma {:induction false} SweepStatsAgree(t: Tables, batch: seq<string>, now: int, gw: Gateway, serverId: string)
    requires Distinct(batch)
    requires serverId in t.servers
    requires exists id :: id in SettledBy(t.messages, batch, gw) && t.messages[id].serverId == serverId
    ensures var t' := SweepEffect(t, batch, now, gw);
      serverId in t'.servers && t'.servers[serverId].stats == Recount(t'.messages, t'.rules, serverId)
    decreases |batch|
  {
    var n := |batch| - 1;
    var front, last := batch[..n], batch[n];
    DistinctSplit(batch);
    SweepLeavesOthers(t, front, now, gw, last);
    var mid := SweepEffect(t, front, now, gw);
    ServersStay(t, front, now, gw);
    if Completed(Classify(t.messages, last, gw)) && t.messages[last].serverId == serverId {
      assert Completed(Classify(mid.messages, last, gw));
      DeleteCompleted(mid, last, now, gw);
    } else {
      var id :| id in SettledBy(t.messages, batch, gw) && t.messages[id].serverId == serverId;
      FrontMembership(batch, id);
      assert id != last;
      assert id in SettledBy(t.messages, front, gw);
      SweepStatsAgree(t, front, now, gw, serverId);
      if Completed(Classify(mid.messages, last, gw)) {
        RecountUnaffected(mid, last, now, gw, serverId);
        assert mid.messages[last] == t.messages[last];
      }
    }
  }

  /**
   * One step of a sweep run: the prefix one longer is the executor applied
   * once more, and the id the executor sees is still as it was before the run.
   */
  lemma SweepStep(t: Tables, batch: seq<string>, i: nat, now: int, gw: Gateway)
    requires Distinct(batch) && i < |batch|
    ensures SweepEffect(t, batch[..i + 1], now, gw) == DeleteEffect(SweepEffect(t, batch[..i], now, gw), batch[i], now, gw)
    ensures Classify(SweepEffect(t, batch[..i], now, gw).messages, batch[i], gw) == Classify(t.messages, batch[i], gw)
    ensures SettledBy(t.messages, batch[..i + 1], gw) ==
      SettledBy(t.messages, batch[..i], gw) + (if Completed(Classify(t.messages, batch[i], gw)) then {batch[i]} else {})
  {
    var prefix := batch[..i + 1];
    assert prefix[..i] == batch[..i];
    DistinctSplit(prefix);
    SweepLeavesOthers(t, batch[..i], now, gw, batch[i]);
    forall id ensures id in prefix <==> id in batch[..i] || id == batch[i] {
      FrontMembership(prefix, id);
    }
  }

  /**
   * Selection and deletion ignore the rules, so a sweep deletes the same
   * records whatever the rule store holds: deactivating a rule does not
   * spare the messages it already tracked.
   */
  lemma {:induction false} SweepIgnoresRules(t: Tables, rules': Rules, batch: seq<string>, now: int, gw: Gateway)
    ensures SweepEffect(t.(rules := rules'), batch, now, gw).messages == SweepEffect(t, batch, now, gw).messages
    decreases |batch|
  {
    if batch != [] {
      var front := batch[..|batch| - 1];
      SweepIgnoresRules(t, rules', front, now, gw);
      RulesIrrelevant(SweepEffect(t, front, now, gw), SweepEffect(t.(rules := rules'), front, now, gw),
                      batch[|batch| - 1], now, gw);
    }
  }

  /** No sweep removes a server record. */
  lemma {:induction false} ServersStay(t: Tables, batch: seq<string>, now: int, gw: Gateway)
    ensures SweepEffect(t, batch, now, gw).servers.Keys == t.servers.Keys
    decreases |batch|
  {
    if batch != [] {
      ServersStay(t, batch[..|batch| - 1], now, gw);
    }
  }

  lemma {:induction false} SweepWellFormed(t: Tables, nextRuleId: nat, batch: seq<string>, now: int, gw: Gateway)
    requires WellFormed(t, nextRuleId)
    ensures WellFormed(SweepEffect(t, batch, now, gw), nextRuleId)
    decreases |batch|
  {
    if batch != [] {
      var front := batch[..|batch| - 1];
      SweepWellFormed(t, nextRuleId, front, now, gw);
      DeleteWellFormed(SweepEffect(t, front, now, gw), nextRuleId, batch[|batch| - 1], now, gw);
    }
  }

  // ---------------------------------------------------------------------
  // The scheduler itself
  // ---------------------------------------------------------------------

  class MessageScheduler {
    /** The timer table: message id to the instant its one-shot timer is due. */
    var jobs: map<string, int>
    /**
     * The ids whose one-shot timer has neither fired nor been cleared. A
     * timer fires once: firing consumes it even when its deletion gives up
     * and the table entry stays.
     */
    ghost var armed: set<string>

    constructor ()
      ensures jobs == map[] && armed == {}
    {
      jobs := map[];
      armed := {};
    }

    /**
     * A deadline already reached deletes at once and registers no timer;
     * otherwise one timer is registered under the message id (replacing the
     * table entry of an earlier one).
     */
    method ScheduleMessageDeletion(db: Database, messageId: string, expiresAt: int, now: int, gw: Gateway)
      returns (fired: Option<DeleteOutcome>)
      requires db.Valid()
      modifies this, db
      ensures db.Valid() && db.nextRuleId == old(db.nextRuleId)
      ensures expiresAt <= now ==>
        && fired == Some(Classify(old(db.messages), messageId, gw))
        && db.Snapshot() == DeleteEffect(old(db.Snapshot()), messageId, now, gw)
        && jobs == (if Completed(fired.value) then old(jobs) - {messageId} else old(jobs))
        && armed == (if Completed(fired.value) then old(armed) - {messageId} else old(armed))
      ensures expiresAt > now ==>
        && fired == None
        && db.Snapshot() == old(db.Snapshot())
        && jobs == old(jobs)[messageId := expiresAt]
        && armed == old(armed) + {messageId}
    {
      var delay := expiresAt - now;
      if delay <= 0 {
        var outcome := DeleteMessage(db, messageId, now, gw);
        fired := Some(outcome);
        return;
      }
      jobs := jobs[messageId := expiresAt];
      armed := armed + {messageId};
      fired := None;
    }

    /**
     * An armed timer whose instant has come fires, once, and runs the
     * executor. The timer is spent whatever the outcome; its table entry is
     * dropped only when the deletion completes, so after a failed deletion
     * the entry stays while only the sweep can still retry the record.
     */
    method FireTimer(db: Database, messageId: string, now: int, gw: Gateway) returns (outcome: DeleteOutcome)
      requires db.Valid()
      requires messageId in armed && messageId in jobs && jobs[messageId] <= now
      modifies this, db
      ensures db.Valid() && db.nextRuleId == old(db.nextRuleId)
      ensures outcome == Classify(old(db.messages), messageId, gw)
      ensures db.Snapshot() == DeleteEffect(old(db.Snapshot()), messageId, now, gw)
      ensures jobs == if Completed(outcome) then old(jobs) - {messageId} else old(jobs)
      ensures armed == old(armed) - {messageId}
    {
      armed := armed - {messageId};
      outcome := DeleteMessage(db, messageId, now, gw);
    }

    /**
     * The executor: look up the pending record, give up while Discord cannot
     * reach the guild or channel (or refuses the delete), otherwise mark the
     * record expired whether or not the message was still there, bump the
     * rule's deleted counter, recount the server and drop the timer entry.
     */
    method DeleteMessage(db: Database, messageId: string, now: int, gw: Gateway) returns (outcome: DeleteOutcome)
      requires db.Valid()
      modifies this, db
      ensures db.Valid() && db.nextRuleId == old(db.nextRuleId)
      ensures outcome == Classify(old(db.messages), messageId, gw)
      ensures db.Snapshot() == DeleteEffect(old(db.Snapshot()), messageId, now, gw)
      ensures jobs == if Completed(outcome) then old(jobs) - {messageId} else old(jobs)
      ensures armed == if Completed(outcome) then old(armed) - {messageId} else old(armed)
    {
      ghost var t0 := db.Snapshot();
      DeleteWellFormed(t0, db.nextRuleId, messageId, now, gw);
      if messageId !in db.messages || db.messages[messageId].isDeleted {
        return NoPendingRecord;
      }
      var tracked := db.messages[messageId];
      if tracked.serverId !in gw.guilds {
        return GuildUnavailable;
      }
      if ChannelRef(tracked.serverId, tracked.channelId) !in gw.textChannels {
        return ChannelUnavailable;
      }
      if messageId in gw.present {
        if messageId in gw.undeletable {
          return DeleteRejected;
        }
        outcome := RemovedFromDiscord;
      } else {
        outcome := AlreadyGone;
      }
      db.messages := db.messages[messageId := Expire(tracked, now)];
      db.rules := BumpDeleted(db.rules, RuleKey(tracked.serverId, tracked.channelId), now);
      BumpsWellFormed(t0.rules, db.nextRuleId, RuleKey(tracked.serverId, tracked.channelId), now);
      UpdateServerStats(db, tracked.serverId);
      jobs := jobs - {messageId};
      armed := armed - {messageId};
    }

    /** Overwrites the server's three counters with a recount; no server, no change. */
    method UpdateServerStats(db: Database, serverId: string)
      requires db.Valid()
      modifies db
      ensures db.Valid()
      ensures db.servers == RefreshStats(old(db.servers), db.messages, db.rules, serverId)
      ensures db.messages == old(db.messages) && db.rules == old(db.rules) && db.nextRuleId == old(db.nextRuleId)
    {
      var totalTracked := |TrackedOf(db.messages, serverId)|;
      var totalDeleted := |DeletedOf(db.messages, serverId)|;
      var channelsWithRules := ActiveRuleCount(db.rules, serverId);
      if serverId in db.servers {
        db.servers := db.servers[serverId := db.servers[serverId].(
          stats := ServerStats(totalTracked, totalDeleted, channelsWithRules))];
      }
    }

    /**
     * One run of the per-minute sweep: query up to 100 due records, then run
     * the executor on each. Returns the batch the query produced.
     */
    method RunSweep(db: Database, now: int, gw: Gateway) returns (batch: seq<string>)
      requires db.Valid()
      modifies this, db
      ensures db.Valid() && db.nextRuleId == old(db.nextRuleId)
      ensures IsDueBatch(old(db.messages), now, SweepBatchLimit, batch)
      ensures db.Snapshot() == SweepEffect(old(db.Snapshot()), batch, now, gw)
      ensures jobs == old(jobs) - SettledBy(old(db.messages), batch, gw)
      ensures armed == old(armed) - SettledBy(old(db.messages), batch, gw)
    {
      batch := db.FindDue(now, SweepBatchLimit);
      ghost var t0 := db.Snapshot();
      ghost var jobs0 := jobs;
      ghost var armed0 := armed;
      assert Distinct(batch);
      var i := 0;
      while i < |batch|
        invariant 0 <= i <= |batch|
        invariant db.Valid() && db.nextRuleId == old(db.nextRuleId)
        invariant db.Snapshot() == SweepEffect(t0, batch[..i], now, gw)
        invariant jobs == jobs0 - SettledBy(t0.messages, batch[..i], gw)
        invariant armed == armed0 - SettledBy(t0.messages, batch[..i], gw)
      {
        SweepStep(t0, batch, i, now, gw);
        var _ := DeleteMessage(db, batch[i], now, gw);
        i := i + 1;
      }
      assert batch[..i] == batch;
    }

    /** The daily purge: drops deleted records older than the retention window. */
    method RunPurge(db: Database, now: int) returns (deletedCount: nat)
      requires db.Valid()
      modifies db
      ensures db.Valid()
      ensures db.messages == Purge(old(db.messages), now)
      ensures db.rules == old(db.rules) && db.servers == old(db.servers) && db.nextRuleId == old(db.nextRuleId)
      ensures deletedCount + |db.messages| == |old(db.messages)|
    {
      var before := db.messages;
      PurgeWellFormed(before, now);
      db.messages := Purge(before, now);
      SubsetCard(db.messages.Keys, before.Keys);
      assert |db.messages.Keys| == |db.messages| && |before.Keys| == |before|;
      deletedCount := |before| - |db.messages|;
    }

    /** Drops the entry for the id; an absent id is a no-op. */
    method CancelMessageDeletion(messageId: string)
      modifies this
      ensures jobs == old(jobs) - {messageId}
      ensures armed == old(armed) - {messageId}
      ensures messageId !in old(jobs) ==> jobs == old(jobs)
    {
      jobs := jobs - {messageId};
      armed := armed - {messageId};
    }

    method ScheduledJobsCount() returns (count: nat)
      ensures count == |jobs|
    {
      count := |jobs|;
    }

    /** Empties the timer table, as a restart does. */
    method ClearAllJobs()
      modifies this
      ensures jobs == map[] && armed == {}
    {
      jobs := map[];
      armed := {};
    }
  }
}
