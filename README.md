# EphemeralBot message-expiry engine in Dafny

EphemeralBot is a Discord bot that deletes messages once they are older than
a per-channel limit. A server admin puts an expiration rule on a channel, by
the `/expire` slash command or from the web dashboard. The rule has one of
four lifetimes: 1 hour, 6 hours, 24 hours or 7 days. The bot then does the
following:

- It records every new message in that channel, with a deadline.
- It sets a one-shot timer per message.
- Every minute it sweeps up to 100 records that are past their deadline.
- It deletes those messages from Discord and marks the records deleted.
- It keeps per-rule and per-server counters.
- Once a day it purges deleted records older than 30 days.

A free server may hold one active rule. A premium subscription, bought
through a payment provider whose webhook flips the server's tier, lifts
the limit until the subscription is cancelled. The status route reports a
premium subscription as expired 30 days after payment. Nothing downgrades
the server at that point, and the limit check never reads the expiry.

This project models that core and proves its properties:

- the three record schemas;
- the scheduler, with its timer table, executor, sweep, stats recount and purge;
- message ingestion;
- the rule operations of the slash command and of the dashboard routes;
- the subscription state;
- the admin-permission bitmask;
- the client-side payment-request check and payment history.

Model conventions:

- **Collections.** Each Mongo collection is a `map` keyed by its unique
  field:
  - messages by `messageId`;
  - rules by the compound key (serverId, channelId);
  - servers by `serverId`.
  The three maps are the fields of the `Database` class, which the handlers
  update in place.
- **Time.** Time is an `int` of milliseconds, passed to each handler as `now`.
- **Discord.** Discord is a `Gateway` value. It says which guilds and text
  channels the bot can see, which messages a fetch returns, and which of
  those refuse deletion.
- **Timers and scheduled jobs.** A timer firing, a sweep run and a purge run
  are explicit method calls.

Every state-changing method is tied to a pure function of the old state,
for example `db.Snapshot() == DeleteEffect(old(db.Snapshot()), id, now, gw)`.
The properties are proved as lemmas about those functions. These are the
main ones:

- Deletion is idempotent.
- Records only move from pending to deleted.
- Right after a deletion refreshes them, a server's counters equal a recount of the records, so deleted ≤ tracked.
- A sweep retires min(100, due) records when Discord cooperates.
- A create on a free server is accepted only while it has no active rule, and then leaves it with at most one. A cancelled premium server keeps the active rules it already has.
- Every refused request leaves the store unchanged.

Modules, in dependency order:

- `Records` in records.dfy
- `MessageStore` in message_store.dfy
- `RuleStore` in rule_store.dfy
- `Database` in database.dfy
- `Scheduler` in scheduler.dfy
- `Ingestion` in ingestion.dfy
- `Auth` in auth.dfy
- `RuleRoutes` in rule_routes.dfy
- `ExpireCommand` in expire_command.dfy
- `PaymentRoutes` in payment_routes.dfy
- `ClientPayments` in client_payments.dfy

The model follows the code in these places:

- **Sweep order.** The sweep query has no sort. `IsDueBatch` leaves the
  choice of records open and claims no oldest-first order.
- **Failed Discord delete.** A `message.delete()` that throws lands in the
  executor's outer `catch`. The record stays pending: this is `DeleteRejected`.
- **Failed fetch.** A fetch that fails is caught and treated as "not found".
  The record is then marked deleted: this is `AlreadyGone`.
- **Server counters.** They are recounted only after a deletion. Ingestion,
  rule changes and the purge leave them as they are.
- **Tier limit.** The limit check reads only the `subscription` field and
  never the expiry (`PaymentRoutes.TierIgnoresExpiry`).
- **Re-running setup.** The free-tier count includes the channel being set
  up, so re-running setup on a free server's one covered channel is refused
  (`ExpireCommand.ResetupRefused`).

## Model

| member | source | states |
|---|---|---|
| Records.NewTrackedMessage | backend/src/models/TrackedMessage.ts:17-68 | a new record is pending (`isDeleted` false, no `deletedAt`, no reason); it passes the schema iff every required string is non-empty and the content is at most 100 characters |
| Records.NewChannelRule | backend/src/models/ChannelRule.ts:23-84 | a new rule is active, preserves pinned messages, has empty exclusion lists and zero counters, and is valid iff its hours are in {1, 6, 24, 168} |
| Records.NewServer | backend/src/models/Server.ts:22-76 | a new server is on the free tier with no expiry, is active and has all three counters at zero |
| MessageStore.Expire | backend/src/services/MessageScheduler.ts:104-111 | the processed record is deleted, with `deletedAt = now` and reason `expired`, and stays schema-valid |
| MessageStore.ExpireEvolves | backend/src/services/MessageScheduler.ts:104-111 | marking a pending record expired is a forward step: only its deletion fields change |
| MessageStore.DeletedWithinTracked | backend/src/services/MessageScheduler.ts:144-150 | a server's deleted-record count never exceeds its record count |
| MessageStore.ExpireCountsOnce | backend/src/services/MessageScheduler.ts:144-150 | expiring one record leaves every server's record set unchanged and raises its own server's deleted count by exactly one |
| MessageStore.InsertCountsOnce | backend/src/bot/events/messageCreate.ts:36-48 | inserting a pending record under a fresh id adds one to its server's record count and leaves deleted counts unchanged |
| MessageStore.Purge | backend/src/services/MessageScheduler.ts:171-176 | the purge only removes records and never alters a survivor |
| MessageStore.PurgeExact | backend/src/services/MessageScheduler.ts:171-176 | a record survives the purge iff it is not deleted-before-the-30-day-cutoff |
| MessageStore.PurgeEvolves | backend/src/services/MessageScheduler.ts:173-176 | the purge removes only deleted records and never changes the due set |
| MessageStore.PurgeIdempotent | backend/src/services/MessageScheduler.ts:171-176 | a second purge at the same instant removes nothing more |
| MessageStore.PurgeWellFormed | backend/src/services/MessageScheduler.ts:173-176 | the purge keeps the collection keyed, valid and consistent |
| RuleStore.ActiveRule | backend/src/bot/events/messageCreate.ts:20-28 | the lookup finds a rule iff the (server, channel) pair has one and it is active |
| RuleStore.IdentifiesUnique | backend/src/routes/servers.ts:163-167 | at most one rule matches a (ruleId, serverId) pair |
| RuleStore.UpsertResult | backend/src/routes/servers.ts:131-143 | after an upsert exactly one rule exists for the pair; it is active with the new hours, an existing rule keeps its id and counters, and no other rule changes |
| RuleStore.UpsertWellFormed | backend/src/models/ChannelRule.ts:86-87 | an upsert with allowed hours keeps one rule per pair, valid hours and distinct ids |
| RuleStore.UpsertActiveCount | backend/src/bot/commands/expire.ts:151-163 | an upsert raises the server's active-rule count by one iff the pair had no active rule; other servers keep theirs |
| RuleStore.FreeTierCap | backend/src/routes/servers.ts:119-128 | when the limit check passes for a free server, the upsert leaves it with at most one active rule |
| RuleStore.FreeTierRefusesSecond | backend/src/bot/commands/expire.ts:117-118 | a free server with an active rule fails the limit check, on any channel |
| RuleStore.DeactivateActiveCount | backend/src/bot/commands/expire.ts:276-278 | deactivating an active rule lowers its server's count by exactly one; other counts stay |
| RuleStore.DeactivateWellFormed | backend/src/routes/servers.ts:163-167 | soft deletion keeps the rule store well formed |
| RuleStore.BumpsKeepActiveRules | backend/src/services/MessageScheduler.ts:114-120 | the counter bumps leave every server's set of active rules unchanged |
| RuleStore.BumpsWellFormed | backend/src/bot/events/messageCreate.ts:58-61 | the counter bumps keep the rule store well formed |
| Database.InsertNewestFirst | backend/src/routes/servers.ts:93-96 | inserting a rule into a newest-first list keeps it newest-first, adds exactly that rule and grows it by one |
| Database.Database.FindDue | backend/src/services/MessageScheduler.ts:34-37 | the sweep query returns distinct due records (deadline reached, not deleted), exactly min(limit, number due) of them |
| Database.Database.FindActiveRules | backend/src/routes/servers.ts:93-96 | the listing returns each active rule of the server exactly once and nothing else, ordered by `createdAt` newest first |
| Database.ListingOnePerRule | backend/src/routes/servers.ts:93-96 | any sequence holding the server's active rules with as many entries as there are active rules repeats no entry, so it holds each rule exactly once |
| Database.Database.FindRuleById | backend/src/routes/servers.ts:163-167 | the lookup finds the rule with that id in that server, or reports that none exists |
| Database.Database.UpsertRule | backend/src/routes/servers.ts:131-143 | the rule map becomes the upsert of the old one, the id counter advances only on insert, and validity is kept |
| Database.Database.DeactivateRule | backend/src/bot/commands/expire.ts:276-278 | the rule map becomes the old one with that rule inactive, and nothing else changes |
| Scheduler.Classify | backend/src/services/MessageScheduler.ts:58-101 | the executor finds no pending record iff the id is absent or already deleted, and it completes only on a record that is present and not deleted |
| Scheduler.RefreshAgrees | backend/src/services/MessageScheduler.ts:144-159 | after a refresh the server's counters equal the recount (records, deleted records, active rules), so deleted ≤ tracked |
| Scheduler.FailedDeleteChangesNothing | backend/src/services/MessageScheduler.ts:63-80 | an executor call that returns early changes no table |
| Scheduler.UnavailableStaysDue | backend/src/services/MessageScheduler.ts:68-80 | when the guild or channel is unavailable, or the delete is refused, the record stays pending and due for a later sweep |
| Scheduler.DeleteIdempotent | backend/src/services/MessageScheduler.ts:58-66 | after a completed deletion, another call on the same id, at any time and with any Discord state, finds no pending record and changes nothing |
| Scheduler.DeleteCompleted | backend/src/services/MessageScheduler.ts:82-123 | a completed deletion marks the record expired, raises the rule's deleted counter by one, and sets the server counters to the recount: deleted +1, tracked unchanged, deleted ≤ tracked |
| Scheduler.RecountUnaffected | backend/src/services/MessageScheduler.ts:144-159 | deleting another server's record leaves this server's recount unchanged |
| Scheduler.RulesIrrelevant | backend/src/services/MessageScheduler.ts:58-111 | stores with the same records delete alike, whatever their rules |
| Scheduler.DeleteWellFormed | backend/src/services/MessageScheduler.ts:104-123 | the executor keeps all three collections well formed |
| Scheduler.SweepLeavesOthers | backend/src/services/MessageScheduler.ts:41-43 | a sweep leaves any record outside its batch untouched |
| Scheduler.SweepSettles | backend/src/services/MessageScheduler.ts:34-43 | after a sweep, exactly the batch records whose deletion completes are marked expired; all others are unchanged and none appears or disappears |
| Scheduler.SweepEvolves | backend/src/services/MessageScheduler.ts:41-43 | a sweep moves records only from pending to deleted |
| Scheduler.SweepDrainsDue | backend/src/services/MessageScheduler.ts:34-43 | when Discord can complete every due deletion, a run removes its batch from the due set, which shrinks by min(100, due); a backlog of at most 100 is cleared |
| Scheduler.SweepStatsAgree | backend/src/services/MessageScheduler.ts:41-43 | after a run, every server with a record deleted in it shows counters equal to the recount of the final state |
| Scheduler.SweepIgnoresRules | backend/src/services/MessageScheduler.ts:34-43 | a sweep deletes the same records whatever the rule store holds, so deactivating a rule spares nothing already tracked |
| Scheduler.SweepWellFormed | backend/src/services/MessageScheduler.ts:41-43 | a sweep keeps all three collections well formed |
| Scheduler.MessageScheduler.ScheduleMessageDeletion | backend/src/services/MessageScheduler.ts:11-26 | a deadline already reached runs the executor at once and registers no timer; otherwise exactly one entry, keyed by the message id, is registered, its timer is armed, and the store is unchanged |
| Scheduler.MessageScheduler.FireTimer | backend/src/services/MessageScheduler.ts:21-23 | an armed timer whose instant has come fires once: it is spent whatever the outcome, it runs the executor on its id, and its table entry is dropped only if the deletion completed |
| Scheduler.MessageScheduler.DeleteMessage | backend/src/services/MessageScheduler.ts:56-139 | the executor's outcome and new tables are those of `Classify` and `DeleteEffect`; the timer entry is dropped and its timer cleared iff the deletion completed; the store stays valid |
| Scheduler.MessageScheduler.UpdateServerStats | backend/src/services/MessageScheduler.ts:142-163 | the server's counters are overwritten with the recount, not incremented; an unknown server is left alone |
| Scheduler.MessageScheduler.RunSweep | backend/src/services/MessageScheduler.ts:30-50 | one run takes a due batch of at most 100, applies the executor to each in turn (state = `SweepEffect`), and drops exactly the settled ids from the timer table and clears their timers |
| Scheduler.MessageScheduler.RunPurge | backend/src/services/MessageScheduler.ts:166-186 | the record map becomes its purge, the other collections are unchanged, and the reported count is the number of records removed |
| Scheduler.MessageScheduler.CancelMessageDeletion | backend/src/services/MessageScheduler.ts:189-195 | removes the id's entry and clears its timer; an absent id is a no-op |
| Scheduler.MessageScheduler.ScheduledJobsCount | backend/src/services/MessageScheduler.ts:198-200 | the count equals the size of the timer table |
| Scheduler.MessageScheduler.ClearAllJobs | backend/src/services/MessageScheduler.ts:203-208 | the timer table ends empty and no timer stays armed |
| Ingestion.Excerpt | backend/src/bot/events/messageCreate.ts:42 | the excerpt is a prefix of the content, of length min(|content|, 100) |
| Ingestion.ExpiryFor | backend/src/bot/events/messageCreate.ts:31-33 | for an allowed rule the deadline lies between now + 1 hour and now + 7 days, so it is after now |
| Ingestion.OnlyCoveredTracked | backend/src/bot/events/messageCreate.ts:9-28 | a message is tracked iff it is not from a bot, is in a guild, has content, falls under an active rule, has a fresh id and makes a valid record; otherwise nothing changes |
| Ingestion.TrackedRecord | backend/src/bot/events/messageCreate.ts:30-51 | the stored record is pending; it carries an excerpt of at most 100 characters; its deadline is now + hours·3 600 000 and is the same one the timer gets; it is not due now but is due at its deadline |
| Ingestion.TrackedCounts | backend/src/bot/events/messageCreate.ts:36-61 | tracking is a forward step; it adds one record to the server's count, leaves the deleted count and the active rules unchanged, and raises `messagesTracked` by exactly one |
| Ingestion.IngestWellFormed | backend/src/bot/events/messageCreate.ts:36-61 | ingestion keeps the store well formed |
| Ingestion.HandleMessageCreate | backend/src/bot/events/messageCreate.ts:7-77 | the handler's outcome and new tables are those of `IngestDecision` and `IngestEffect`; a timer entry with the saved deadline is registered and armed iff the message is tracked |
| Auth.BitAnd | backend/src/services/AuthService.ts:123-129 | the bitwise and of two non-negative integers is at most each operand |
| Auth.AndSingleBit | backend/src/services/AuthService.ts:127-129 | masking with 2^k gives 2^k iff bit k is set |
| Auth.HasAdminPermissions | backend/src/services/AuthService.ts:122-132 | access is granted iff bit 0x8 (ADMINISTRATOR) is set, or bit 0x20 (MANAGE_GUILD) is set, or the user owns the guild |
| Auth.PermissionExamples | backend/src/services/AuthService.ts:122-132 | concrete bitfields: 0x8 alone, 0x20 alone and both mixed with other bits grant access; 0x806 does not unless owner; an owner with no bits is granted |
| Auth.TokenExpiry | backend/src/services/AuthService.ts:81 | the token expiry lies a whole number of seconds after now, exactly the given lifetime in seconds, and not before now for a non-negative lifetime |
| RuleRoutes.EnrichServers | backend/src/routes/servers.ts:53-77 | the list holds exactly the guilds the user may manage, each joined with the bot's record; `botPresent` holds iff a record exists; without a record the entry is free with zero counters |
| RuleRoutes.CreateRuleStatus | backend/src/routes/servers.ts:113-128 | 400 iff the hours are not in {1, 6, 24, 168}; 402 iff the hours are allowed and a free or unknown server already has an active rule; 200 otherwise |
| RuleRoutes.CreateAccepted | backend/src/routes/servers.ts:131-143 | an accepted create leaves the pair covered by an active rule with the new hours, and a free server with exactly one active rule |
| RuleRoutes.CreateRule | backend/src/routes/servers.ts:108-153 | the status is `CreateRuleStatus`; on 200 the rules become the upsert and the stored rule is returned; on 400 or 402 nothing changes |
| RuleRoutes.DeleteRule | backend/src/routes/servers.ts:156-182 | 200 iff a rule with that id belongs to that server, and then exactly that rule is set inactive; otherwise 404 and nothing changes |
| RuleRoutes.DeleteTouchesOneRule | backend/src/routes/servers.ts:163-171 | the soft delete changes only the one matching rule, and lowers the server's active count by one if that rule was active |
| ExpireCommand.SetupAgreesWithRoute | backend/src/bot/commands/expire.ts:110-148 | for a text channel and allowed hours, setup is refused iff the dashboard route answers 402, and proceeds iff it answers 200 |
| ExpireCommand.ResetupRefused | backend/src/bot/commands/expire.ts:111-148 | on a free server, setup on the channel that already has the active rule is refused too, reporting at least one rule |
| ExpireCommand.HandleSetup | backend/src/bot/commands/expire.ts:87-183 | outside a guild or for a non-text channel the reply is an error; a free or unknown server with an active rule is refused; otherwise the pair is upserted; only the accepted path writes |
| ExpireCommand.StopUncovers | backend/src/bot/commands/expire.ts:261-278 | after stop the channel has no active rule, its server has exactly one active rule fewer, and every other rule is unchanged |
| ExpireCommand.HandleStop | backend/src/bot/commands/expire.ts:240-293 | the reply follows the guards and the active-rule lookup; only a found rule is deactivated; otherwise nothing changes |
| ExpireCommand.HandleStatus | backend/src/bot/commands/expire.ts:185-238 | the listing's lines are those of a sequence listing the guild's active rules, one line per rule in some order and nothing else, each labelled by the cached channel name or else the stored name; the total is the active count; a guild without rules gets its own reply |
| PaymentRoutes.CreatePayment | backend/src/routes/payments.ts:31-55 | 400 iff the server id is missing, 404 iff the server is unknown, otherwise a checkout of 600 cents in USD carrying the server and the user |
| PaymentRoutes.SubscriptionStatusOf | backend/src/routes/payments.ts:110-127 | 404 iff the server is unknown; `isExpired` iff an expiry exists and is before now; `isActive` iff premium and not expired |
| PaymentRoutes.TierIgnoresExpiry | backend/src/routes/payments.ts:119-126 | a premium server past its expiry is inactive by the status route, yet still outside the free tier for the rule limit |
| PaymentRoutes.SetSubscriptionFrame | backend/src/routes/payments.ts:147-153 | a subscription update changes only the two subscription fields of that server |
| PaymentRoutes.PremiumWindow | backend/src/routes/webhooks.ts:14-24 | after a successful payment at t, the server is active exactly at the instants ≤ t + 30 days, whatever it had before, and is off the free tier |
| PaymentRoutes.CancelEndsPremium | backend/src/routes/payments.ts:141-153 | after cancellation the server is free and never active, and the limit check applies again (it passes iff no rule is active); existing active rules stay active |
| PaymentRoutes.CancelSubscription | backend/src/routes/payments.ts:137-169 | 404 with no change for an unknown server; otherwise 200 and the server is downgraded to free with no expiry |
| PaymentRoutes.WebhookInert | backend/src/routes/webhooks.ts:14-63 | `payment.failed`, any other event, a body without metadata, and any event for an unknown server leave the server store unchanged |
| PaymentRoutes.WebhookStatus | backend/src/routes/webhooks.ts:14-69 | the answer is 500 iff one of the three named events arrives without `data.metadata` (reading it throws), and 200 otherwise |
| PaymentRoutes.FailedWebhookInert | backend/src/routes/webhooks.ts:64-69 | a body answered with 500 changes no server |
| PaymentRoutes.CancelPathsAgree | backend/src/routes/webhooks.ts:42-53 | the webhook's cancellation leaves the server in the same state as the dashboard's |
| PaymentRoutes.HandleDodoWebhook | backend/src/routes/webhooks.ts:8-70 | the server store becomes `ApplyWebhook` of the event, and the status is `WebhookStatus`: 500 for a named event without metadata, 200 otherwise |
| ClientPayments.ValidatePaymentRequest | frontend/lib/payments.ts:233-253 | each of the four messages appears iff its field is invalid; a valid request yields no message; at most 4 messages, in check order, each once |
| ClientPayments.PaymentHistory.HandlePaymentSuccess | frontend/lib/payments.ts:182-196 | appends exactly one `success` entry, keeps the earlier ones, and redirects to the dashboard |
| ClientPayments.PaymentHistory.HandlePaymentFailure | frontend/lib/payments.ts:201-218 | appends exactly one `failed` entry carrying the error, keeps the earlier ones, and redirects to pricing with the error or a default text |

## Left out

- Discord client calls are not modelled; the `Gateway` value stands in for them. These are the guild and channel caches, `messages.fetch`, `message.delete`, and the embeds, buttons and replies, which become reply tags.
- `node-cron`, `setTimeout` and `clearTimeout` are not modelled. Timer firings, sweep runs and purge runs are method calls with `now` as a parameter. The timer table stores each entry's deadline instead of a timeout handle.
- Scheduler.MessageScheduler.ScheduleMessageDeletion: scheduling an id twice replaces its table entry. The earlier timeout is not cleared in the source and would still fire. The model keeps one armed timer per id, so that orphaned second timer is not represented. Its firing would be one more executor call, which `Scheduler.DeleteIdempotent` makes harmless once the record is settled.
- Scheduler.MessageScheduler.ScheduleMessageDeletion: the immediate delete is not awaited in the source. The model runs it to completion within the call.
- Concurrency is not modelled. The executor finds the record and then updates it in separate steps, and sweeps, timers and handlers can interleave. Each call is one sequential step, and nothing is claimed about races.
- MongoDB failures are not modelled: connection errors, cast errors on malformed ids (such as a `ruleId` that is not an ObjectId, which gives 500), and the `catch` blocks that log them. The one store failure modelled is an insert the unique index or the schema refuses (`SaveFailed`).
- A handler reads the clock several times in the source (`Date.now()`, `new Date()`). The model uses one `now` per call.
- Scheduler.MessageScheduler.FireTimer: the armed-timer set is ghost bookkeeping of which one-shot timers are still pending. After a failed deletion the table entry stays while the timer is spent, so only the sweep retries that record. The model does not promise `armed <= jobs.Keys` as a class invariant.
- PaymentRoutes.HandleDodoWebhook: a body whose `data.metadata` is present but has no `serverId` is not modelled. In the source the update then runs with an undefined filter value, and the model's `serverId` is either present or absent together with the metadata.
- Ingestion.Excerpt counts characters. JavaScript's `substring` counts UTF-16 code units, so the two differ on text outside the basic plane.
- ExpireCommand.HandleSetup requires the hours to be allowed. Discord only offers the four choices, and the command does not check them itself.
- RuleRoutes.CreateRule takes the hours as an integer. A JSON body with a non-number fails the membership test (400) in the source, which the model does not represent.
- ClientPayments.ValidatePaymentRequest takes the amount as an optional integer. JavaScript `NaN` and fractional amounts are floating point and are not modelled.
- Express routing is not modelled, and neither is authentication:
  - the `authenticateToken` middleware and its 401 answers;
  - JWT signing and verification;
  - the user lookup and the Discord OAuth and guild-list calls of the server-list route (the guild list is a parameter of `RuleRoutes.EnrichServers`);
  - the payment provider's HTTP calls, and the payment-status route, which only forwards one.
- The server-stats route (`GET /:serverId/stats`) only returns the stored counters. What those counters hold is stated by `Scheduler.RefreshAgrees` and `Scheduler.SweepStatsAgree`.
- `formatCurrency` uses floating-point division and `Intl.NumberFormat`. The fetch wrappers of the frontend payment service only call the network.
- The ErrorLogger console logging, the `User` schema and the wiring files are not part of this model: app.ts, the bot index, command registration and interaction dispatch.
- The rule settings `preservePinned`, `excludeRoles` and `excludeUsers` are stored with their defaults. No modelled code reads them, so no enforcement is claimed.
