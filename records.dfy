/**
 * The three persisted record shapes: TrackedMessage, ChannelRule and Server.
 * Instants are integer milliseconds since the epoch; identifiers (Discord
 * snowflakes, user ids) are strings, the empty string standing for a value
 * that is missing.
 */
module Records {

  datatype Option<+T> = None | Some(value: T)

  const SecondMs: int := 1000
  const HourMs: int := 60 * 60 * SecondMs
  const DayMs: int := 24 * HourMs

  // ---------------------------------------------------------------------
  // TrackedMessage
  // ---------------------------------------------------------------------

  /** Longest excerpt a tracked message may store. */
  const ExcerptLimit: nat := 100

  /** The `deletionReason` enumeration. */
  datatype DeletionReason = Expired | Manual | RuleRemoved

  datatype TrackedMessage = TrackedMessage(
    messageId: string,
    channelId: string,
    serverId: string,
    authorId: string,
    authorUsername: string,
    content: string,
    createdAt: int,
    expiresAt: int,
    isDeleted: bool,
    deletedAt: Option<int>,
    deletionReason: Option<DeletionReason>)

  /**
   * What the schema validates when a record is saved: every required string
   * is present (a required string rejects the empty string) and the excerpt
   * is at most ExcerptLimit characters.
   */
  predicate ValidMessage(m: TrackedMessage) {
    && m.messageId != ""
    && m.channelId != ""
    && m.serverId != ""
    && m.authorId != ""
    && m.authorUsername != ""
    && m.content != ""
    && |m.content| <= ExcerptLimit
  }

  /** A record nobody has deleted yet carries no deletion data. */
  predicate Pending(m: TrackedMessage) {
    !m.isDeleted && m.deletedAt.None? && m.deletionReason.None?
  }

  /**
   * A fresh record: `isDeleted` takes its default (false), `deletedAt` and
   * `deletionReason` are absent, `expiresAt` is the required deadline.
   */
  function NewTrackedMessage(messageId: string, channelId: string, serverId: string,
                             authorId: string, authorUsername: string, content: string,
                             createdAt: int, expiresAt: int): (m: TrackedMessage)
    ensures Pending(m)
    ensures m.messageId == messageId && m.expiresAt == expiresAt && m.content == content
    ensures ValidMessage(m) <==>
      messageId != "" && channelId != "" && serverId != "" && authorId != ""
      && authorUsername != "" && content != "" && |content| <= ExcerptLimit
  {
    TrackedMessage(messageId, channelId, serverId, authorId, authorUsername, content,
                   createdAt, expiresAt, false, None, None)
  }

  // ---------------------------------------------------------------------
  // ChannelRule
  // ---------------------------------------------------------------------

  /** The `expirationHours` enumeration: 1h, 6h, 24h and 7 days. */
  predicate AllowedHours(h: int) {
    h == 1 || h == 6 || h == 24 || h == 168
  }

  datatype RuleSettings = RuleSettings(preservePinned: bool, excludeRoles: seq<string>, excludeUsers: seq<string>)

  datatype RuleStats = RuleStats(messagesTracked: nat, messagesDeleted: nat, lastActivity: int)

  /** `id` stands for the store's own primary key of the rule document. */
  datatype ChannelRule = ChannelRule(
    id: nat,
    serverId: string,
    channelId: string,
    channelName: string,
    expirationHours: int,
    isActive: bool,
    createdAt: int,
    createdBy: string,
    settings: RuleSettings,
    stats: RuleStats)

  predicate ValidRule(r: ChannelRule) {
    AllowedHours(r.expirationHours)
  }

  /**
   * A rule inserted by an upsert: the given fields, and the schema defaults
   * for everything else (active, pinned messages preserved, no exclusions,
   * zero counters, last activity at creation).
   */
  function NewChannelRule(id: nat, serverId: string, channelId: string, channelName: string,
                          hours: int, createdAt: int, createdBy: string): (r: ChannelRule)
    ensures r.isActive
    ensures r.settings.preservePinned && r.settings.excludeRoles == [] && r.settings.excludeUsers == []
    ensures r.stats.messagesTracked == 0 && r.stats.messagesDeleted == 0
    ensures r.id == id && r.serverId == serverId && r.channelId == channelId && r.expirationHours == hours
    ensures ValidRule(r) <==> AllowedHours(hours)
  {
    ChannelRule(id, serverId, channelId, channelName, hours, true, createdAt, createdBy,
                RuleSettings(true, [], []), RuleStats(0, 0, createdAt))
  }

  // ---------------------------------------------------------------------
  // Server
  // ---------------------------------------------------------------------

  /** The `subscription` enumeration. */
  datatype Subscription = Free | Premium

  datatype ServerStats = ServerStats(totalMessagesTracked: nat, totalMessagesDeleted: nat, channelsWithRules: nat)

  const ZeroServerStats := ServerStats(0, 0, 0)

  datatype Server = Server(
    serverId: string,
    serverName: string,
    ownerId: string,
    subscription: Subscription,
    subscriptionExpiry: Option<int>,
    createdAt: int,
    isActive: bool,
    timezone: string,
    notifyBeforeDelete: bool,
    stats: ServerStats)

  /** The server collection, keyed by its unique `serverId`. */
  type Servers = map<string, Server>

  predicate ServersKeyed(servers: Servers) {
    forall s :: s in servers ==> servers[s].serverId == s
  }

  /**
   * A new server record: free tier with no expiry, active, UTC, no
   * notifications, all counters zero.
   */
  function NewServer(serverId: string, serverName: string, ownerId: string, createdAt: int): (s: Server)
    ensures s.subscription == Free && s.subscriptionExpiry == None
    ensures s.stats == ZeroServerStats && s.isActive
    ensures s.serverId == serverId
  {
    Server(serverId, serverName, ownerId, Free, None, createdAt, true, "UTC", false, ZeroServerStats)
  }
}
