/**
 * The tracked-message collection as a map from `messageId` (its unique key)
 * to the record, with the pure operations the scheduler performs on it:
 * the due-for-deletion test, marking a record expired, the per-server counts
 * and the retention purge.
 */
module MessageStore {
  import opened Records

  type Messages = map<string, TrackedMessage>

  /**
   * A record's deletion data is set exactly when it is deleted. The schema
   * does not demand this; every operation of the model keeps it.
   */
  predicate Settled(m: TrackedMessage) {
    if m.isDeleted then m.deletedAt.Some? && m.deletionReason.Some? else Pending(m)
  }

  /** Unique `messageId`, schema-valid records, consistent deletion data. */
  predicate MessagesWellFormed(msgs: Messages) {
    forall id :: id in msgs ==> msgs[id].messageId == id && ValidMessage(msgs[id]) && Settled(msgs[id])
  }

  // ---------------------------------------------------------------------
  // Due records
  // ---------------------------------------------------------------------

  /** The sweep's filter: past its deadline (inclusive) and not yet deleted. */
  predicate IsDue(m: TrackedMessage, now: int) {
    !m.isDeleted && m.expiresAt <= now
  }

  function DueIds(msgs: Messages, now: int): set<string> {
    set id | id in msgs && IsDue(msgs[id], now)
  }

  // ---------------------------------------------------------------------
  // Deletion
  // ---------------------------------------------------------------------

  /** The update the executor writes once the gateway step is over. */
  function Expire(m: TrackedMessage, now: int): (e: TrackedMessage)
    ensures e.isDeleted && e.deletedAt == Some(now) && e.deletionReason == Some(Expired)
    ensures ValidMessage(m) ==> ValidMessage(e)
  {
    m.(isDeleted := true, deletedAt := Some(now), deletionReason := Some(Expired))
  }

  /**
   * The only change a record may undergo: none, or pending to deleted with
   * identity, author, excerpt and deadline untouched.
   */
  predicate Advances(m: TrackedMessage, m': TrackedMessage) {
    m' == m ||
    (!m.isDeleted && m'.isDeleted &&
     m' == m.(isDeleted := true, deletedAt := m'.deletedAt, deletionReason := m'.deletionReason))
  }

  /**
   * Records evolve only forward: surviving records advance, records that
   * disappear were deleted, records that appear are pending.
   */
  predicate Evolves(msgs: Messages, msgs': Messages) {
    && (forall id :: id in msgs && id in msgs' ==> Advances(msgs[id], msgs'[id]))
    && (forall id :: id in msgs && id !in msgs' ==> msgs[id].isDeleted)
    && (forall id :: id in msgs' && id !in msgs ==> !msgs'[id].isDeleted)
  }

  /** Marking one pending record expired is a forward step. */
  lemma ExpireEvolves(msgs: Messages, id: string, now: int)
    requires id in msgs && !msgs[id].isDeleted
    ensures Evolves(msgs, msgs[id := Expire(msgs[id], now)])
  {
  }

  // ---------------------------------------------------------------------
  // Per-server counts
  // ---------------------------------------------------------------------

  function TrackedOf(msgs: Messages, serverId: string): set<string> {
    set id | id in msgs && msgs[id].serverId == serverId
  }

  function DeletedOf(msgs: Messages, serverId: string): set<string> {
    set id | id in msgs && msgs[id].serverId == serverId && msgs[id].isDeleted
  }

  /** A server never has more deleted records than records. */
  lemma DeletedWithinTracked(msgs: Messages, serverId: string)
    ensures |DeletedOf(msgs, serverId)| <= |TrackedOf(msgs, serverId)|
  {
    assert DeletedOf(msgs, serverId) <= TrackedOf(msgs, serverId);
    SubsetCard(DeletedOf(msgs, serverId), TrackedOf(msgs, serverId));
  }

  lemma {:induction false} SubsetCard<T>(a: set<T>, b: set<T>)
    requires a <= b
    ensures |a| <= |b|
  {
    if a != {} {
      var x :| x in a;
      SubsetCard(a - {x}, b - {x});
    }
  }

  /**
   * Expiring one pending record leaves every server's record count as it was
   * and raises its own server's deleted count by exactly one.
   */
  lemma {:induction false} ExpireCountsOnce(msgs: Messages, id: string, now: int, serverId: string)
    requires id in msgs && !msgs[id].isDeleted
    ensures TrackedOf(msgs[id := Expire(msgs[id], now)], serverId) == TrackedOf(msgs, serverId)
    ensures |DeletedOf(msgs[id := Expire(msgs[id], now)], serverId)|
         == |DeletedOf(msgs, serverId)| + (if msgs[id].serverId == serverId then 1 else 0)
  {
    var msgs' := msgs[id := Expire(msgs[id], now)];
    assert TrackedOf(msgs', serverId) == TrackedOf(msgs, serverId);
    if msgs[id].serverId == serverId {
      assert DeletedOf(msgs', serverId) == DeletedOf(msgs, serverId) + {id};
      assert id !in DeletedOf(msgs, serverId);
    } else {
      assert DeletedOf(msgs', serverId) == DeletedOf(msgs, serverId);
    }
  }

  /**
   * Inserting a pending record under a fresh id adds one to its server's
   * record count and leaves every deleted count as it was.
   */
  lemma {:induction false} InsertCountsOnce(msgs: Messages, id: string, m: TrackedMessage, serverId: string)
    requires id !in msgs && !m.isDeleted
    ensures |TrackedOf(msgs[id := m], serverId)|
         == |TrackedOf(msgs, serverId)| + (if m.serverId == serverId then 1 else 0)
    ensures DeletedOf(msgs[id := m], serverId) == DeletedOf(msgs, serverId)
  {
    var msgs' := msgs[id := m];
    if m.serverId == serverId {
      assert TrackedOf(msgs', serverId) == TrackedOf(msgs, serverId) + {id};
    } else {
      assert TrackedOf(msgs', serverId) == TrackedOf(msgs, serverId);
    }
    assert DeletedOf(msgs', serverId) == DeletedOf(msgs, serverId);
  }

  // ---------------------------------------------------------------------
  // Retention purge
  // ---------------------------------------------------------------------

  const RetentionMs: int := 30 * DayMs

  /** What the daily purge removes: deleted before the 30-day cutoff. */
  predicate Stale(m: TrackedMessage, now: int) {
    m.isDeleted && m.deletedAt.Some? && m.deletedAt.value < now - RetentionMs
  }

  function Purge(msgs: Messages, now: int): (kept: Messages)
    ensures kept.Keys <= msgs.Keys
    ensures forall id :: id in kept ==> kept[id] == msgs[id]
  {
    map id | id in msgs && !Stale(msgs[id], now) :: msgs[id]
  }

  /**
   * The purge removes exactly the stale records: a record survives if and
   * only if it is not stale, and what survives is untouched.
   */
  lemma PurgeExact(msgs: Messages, now: int, id: string)
    requires id in msgs
    ensures id in Purge(msgs, now) <==> !Stale(msgs[id], now)
  {
  }

  /** The purge is a forward step and never touches a due record. */
  lemma PurgeEvolves(msgs: Messages, now: int, at: int)
    ensures Evolves(msgs, Purge(msgs, now))
    ensures DueIds(Purge(msgs, now), at) == DueIds(msgs, at)
  {
  }

  /** A second purge at the same instant removes nothing more. */
  lemma PurgeIdempotent(msgs: Messages, now: int)
    ensures Purge(Purge(msgs, now), now) == Purge(msgs, now)
  {
  }

  lemma PurgeWellFormed(msgs: Messages, now: int)
    requires MessagesWellFormed(msgs)
    ensures MessagesWellFormed(Purge(msgs, now))
  {
  }
}
