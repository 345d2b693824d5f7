/**
 * The subscription state of a server and everything that moves it: the
 * payment-creation guards, the subscription-status computation, the
 * dashboard's cancel route and the payment provider's webhook.
 */
module PaymentRoutes {
  import opened Records
  import opened RuleStore
  import opened Database

  // ---------------------------------------------------------------------
  // Creating a payment
  // ---------------------------------------------------------------------

  /** The premium price: $6.00 in cents. */
  const PremiumPriceCents: nat := 600
  const PremiumCurrency: string := "USD"

  /** What the route sends to the payment provider. */
  datatype PaymentData = PaymentData(amount: nat, currency: string, serverId: string, discordId: string)

  datatype CreatePaymentResult = MissingServerId | ServerNotFound | Checkout(data: PaymentData)

  /**
   * `POST /create`: 400 without a server id, 404 for a server the bot has no
   * record of, otherwise a checkout for the fixed price in USD that carries
   * the server and the user in its metadata.
   */
  function CreatePayment(servers: Servers, serverId: string, discordId: string): (r: CreatePaymentResult)
    ensures r == MissingServerId <==> serverId == ""
    ensures r == ServerNotFound <==> serverId != "" && serverId !in servers
    ensures r.Checkout? <==> serverId != "" && serverId in servers
    ensures r.Checkout? ==> r.data.amount == PremiumPriceCents && r.data.currency == PremiumCurrency
    ensures r.Checkout? ==> r.data.serverId == serverId && r.data.discordId == discordId
  {
    if serverId == "" then MissingServerId
    else if serverId !in servers then ServerNotFound
    else Checkout(PaymentData(PremiumPriceCents, PremiumCurrency, serverId, discordId))
  }

  // ---------------------------------------------------------------------
  // Subscription status
  // ---------------------------------------------------------------------

  /** Expired: an expiry is recorded and lies strictly before now. */
  predicate IsExpired(expiry: Option<int>, now: int) {
    expiry.Some? && expiry.value < now
  }

  /** Active: premium and not expired (a premium server without expiry is active). */
  predicate IsActiveSubscription(s: Server, now: int) {
    s.subscription == Premium && !IsExpired(s.subscriptionExpiry, now)
  }

  datatype SubscriptionStatus = SubscriptionStatus(
    subscription: Subscription,
    subscriptionExpiry: Option<int>,
    isExpired: bool,
    isActive: bool)

  /** `GET /subscription/:serverId`; None stands for the 404 answer. */
  function SubscriptionStatusOf(servers: Servers, serverId: string, now: int): (r: Option<SubscriptionStatus>)
    ensures r.None? <==> serverId !in servers
    ensures r.Some? ==> r.value.subscription == servers[serverId].subscription
    ensures r.Some? ==>
      (r.value.isExpired <==>
        (servers[serverId].subscriptionExpiry.Some? && servers[serverId].subscriptionExpiry.value < now))
    ensures r.Some? ==> (r.value.isActive <==> r.value.subscription == Premium && !r.value.isExpired)
  {
    if serverId !in servers then None
    else
      var s := servers[serverId];
      Some(SubscriptionStatus(s.subscription, s.subscriptionExpiry, IsExpired(s.subscriptionExpiry, now),
                              IsActiveSubscription(s, now)))
  }

  /**
   * The rule limit reads only the `subscription` field: a premium server
   * whose expiry has passed is inactive by the status route yet still
   * outside the free tier.
   */
  lemma TierIgnoresExpiry(servers: Servers, serverId: string, now: int)
    requires serverId in servers && servers[serverId].subscription == Premium
    requires IsExpired(servers[serverId].subscriptionExpiry, now)
    ensures !SubscriptionStatusOf(servers, serverId, now).value.isActive
    ensures !IsFreeTier(servers, serverId)
    ensures forall rules: Rules :: WithinTierLimit(servers, rules, serverId)
  {
  }

  // ---------------------------------------------------------------------
  // Transitions
  // ---------------------------------------------------------------------

  /** Premium for 30 days. */
  const PremiumPeriodMs: int := 30 * DayMs

  /** Sets the server's subscription fields if it exists; the update has no upsert. */
  function SetSubscription(servers: Servers, serverId: string, sub: Subscription, expiry: Option<int>): Servers {
    if serverId in servers then
      servers[serverId := servers[serverId].(subscription := sub, subscriptionExpiry := expiry)]
    else servers
  }

  function Upgrade(servers: Servers, serverId: string, now: int): Servers {
    SetSubscription(servers, serverId, Premium, Some(now + PremiumPeriodMs))
  }

  function Downgrade(servers: Servers, serverId: string): Servers {
    SetSubscription(servers, serverId, Free, None)
  }

  /**
   * A subscription change touches the two subscription fields of that one
   * server: no server appears or disappears, the server keeps its name,
   * owner and counters, and every other server is as it was.
   */
  lemma SetSubscriptionFrame(servers: Servers, serverId: string, sub: Subscription, expiry: Option<int>)
    ensures var servers' := SetSubscription(servers, serverId, sub, expiry);
      && servers'.Keys == servers.Keys
      && (forall s :: s in servers && s != serverId ==> servers'[s] == servers[s])
      && (serverId in servers ==>
            servers'[serverId].stats == servers[serverId].stats &&
            servers'[serverId].serverId == servers[serverId].serverId &&
            servers'[serverId].ownerId == servers[serverId].ownerId &&
            servers'[serverId].subscription == sub && servers'[serverId].subscriptionExpiry == expiry)
    ensures ServersKeyed(servers) ==> ServersKeyed(SetSubscription(servers, serverId, sub, expiry))
  {
  }

  /**
   * A payment received at `paid` makes the server premium for exactly the
   * 30 days that follow: active at every instant up to and including
   * `paid + 30 days`, inactive at every instant after, whatever it had before.
   */
  lemma PremiumWindow(servers: Servers, serverId: string, paid: int, at: int)
    requires serverId in servers
    ensures IsActiveSubscription(Upgrade(servers, serverId, paid)[serverId], at) <==> at <= paid + PremiumPeriodMs
    ensures !IsFreeTier(Upgrade(servers, serverId, paid), serverId)
  {
  }

  /** After a cancellation the server is free, never active, and back under the one-rule limit. */
  lemma CancelEndsPremium(servers: Servers, rules: Rules, serverId: string, at: int)
    requires serverId in servers
    ensures !IsActiveSubscription(Downgrade(servers, serverId)[serverId], at)
    ensures IsFreeTier(Downgrade(servers, serverId), serverId)
    ensures WithinTierLimit(Downgrade(servers, serverId), rules, serverId) <==> ActiveRuleCount(rules, serverId) < FreeRuleLimit
  {
  }

  // ---------------------------------------------------------------------
  // The cancel route
  // ---------------------------------------------------------------------

  /** `POST /cancel/:serverId`: 404 and no change for an unknown server, else downgrade. */
  method CancelSubscription(db: Database, serverId: string) returns (status: nat)
    requires db.Valid()
    modifies db
    ensures db.Valid()
    ensures status == (if serverId in old(db.servers) then 200 else 404)
    ensures db.servers == Downgrade(old(db.servers), serverId)
    ensures status == 404 ==> db.servers == old(db.servers)
    ensures db.messages == old(db.messages) && db.rules == old(db.rules) && db.nextRuleId == old(db.nextRuleId)
  {
    if serverId !in db.servers {
      return 404;
    }
    SetSubscriptionFrame(db.servers, serverId, Free, None);
    db.servers := db.servers[serverId := db.servers[serverId].(subscription := Free, subscriptionExpiry := None)];
    status := 200;
  }

  // ---------------------------------------------------------------------
  // The payment provider's webhook
  // ---------------------------------------------------------------------

  /**
   * A webhook body: the event name and, when the body carries
   * `data.metadata`, the server id found there (None: no data or no metadata).
   */
  datatype WebhookEvent = WebhookEvent(event: string, serverId: Option<string>)

  const PaymentSucceeded: string := "payment.succeeded"
  const PaymentFailed: string := "payment.failed"
  const SubscriptionCancelled: string := "subscription.cancelled"

  /** The three events whose branch reads `data.metadata`. */
  predicate NamedEvent(event: string) {
    event == PaymentSucceeded || event == PaymentFailed || event == SubscriptionCancelled
  }

  /**
   * The answer: 500 when a named event's body has no metadata to read, so
   * that reading it throws; 200 with `success: true` otherwise.
   */
  function WebhookStatus(ev: WebhookEvent): (status: nat)
    ensures status == 500 <==> NamedEvent(ev.event) && ev.serverId.None?
    ensures status in {200, 500}
  {
    if NamedEvent(ev.event) && ev.serverId.None? then 500 else 200
  }

  /** The server store after an event: upgrade, downgrade, or no change. */
  function ApplyWebhook(servers: Servers, ev: WebhookEvent, now: int): Servers {
    match ev.serverId
    case None => servers
    case Some(serverId) =>
      if ev.event == PaymentSucceeded then Upgrade(servers, serverId, now)
      else if ev.event == SubscriptionCancelled then Downgrade(servers, serverId)
      else servers
  }

  /**
   * Only the two subscription events of a known server change anything:
   * a failed payment, any other event, a body without metadata and any
   * unknown server leave the store as it was.
   */
  lemma WebhookInert(servers: Servers, ev: WebhookEvent, now: int)
    requires || (ev.event != PaymentSucceeded && ev.event != SubscriptionCancelled)
             || ev.serverId.None?
             || ev.serverId.value !in servers
    ensures ApplyWebhook(servers, ev, now) == servers
  {
  }

  /** A refused body (500) writes nothing. */
  lemma FailedWebhookInert(servers: Servers, ev: WebhookEvent, now: int)
    requires WebhookStatus(ev) == 500
    ensures ApplyWebhook(servers, ev, now) == servers
  {
  }

  /** The webhook's cancellation and the dashboard's leave the server in the same state. */
  lemma CancelPathsAgree(servers: Servers, serverId: string, now: int)
    ensures ApplyWebhook(servers, WebhookEvent(SubscriptionCancelled, Some(serverId)), now) == Downgrade(servers, serverId)
  {
    assert SubscriptionCancelled != PaymentSucceeded;
  }

  /**
   * `POST /dodo`: applies the event; answers 500 when a named event's
   * body lacks its metadata, 200 otherwise.
   */
  method HandleDodoWebhook(db: Database, ev: WebhookEvent, now: int) returns (status: nat)
    requires db.Valid()
    modifies db
    ensures db.Valid()
    ensures status == WebhookStatus(ev)
    ensures db.servers == ApplyWebhook(old(db.servers), ev, now)
    ensures db.messages == old(db.messages) && db.rules == old(db.rules) && db.nextRuleId == old(db.nextRuleId)
  {
    if ev.event == PaymentSucceeded {
      if ev.serverId.None? {
        return 500;
      }
      SetSubscriptionFrame(db.servers, ev.serverId.value, Premium, Some(now + PremiumPeriodMs));
      db.servers := Upgrade(db.servers, ev.serverId.value, now);
    } else if ev.event == PaymentFailed {
      if ev.serverId.None? {
        return 500;
      }
      // only logged
    } else if ev.event == SubscriptionCancelled {
      if ev.serverId.None? {
        return 500;
      }
      SetSubscriptionFrame(db.servers, ev.serverId.value, Free, None);
      db.servers := Downgrade(db.servers, ev.serverId.value);
    }
    status := 200;
  }
}
