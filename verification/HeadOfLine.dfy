/** Head-of-line blocking ends: what one recovery pass clears, and when a claim
    is then certain to return work. */
module HeadOfLine {
  import opened Tables
  import opened PublicQueue
  import opened QueueInvariant
  import opened WorkerStore
  import opened Steps

  /** One recovery pass at `now` leaves the row in a terminal status. */
  predicate Clears(r: PublicRow, now: Instant) {
    match r.status
    case Pending => r.content.deadline <= now
    case Leased => LeaseOver(r, now) && r.content.deadline <= now
    case DispatchFenced => LeaseOver(r, now)
    case _ => true
  }

  /** The pass leaves the row pending, with time left to send it. */
  predicate Waits(r: PublicRow, now: Instant) {
    && r.content.deadline > now
    && (r.status == Pending || (r.status == Leased && LeaseOver(r, now)))
  }

  lemma RecoveredStatus(r: PublicRow, now: Instant)
    ensures !Live(RecoverRow(r, now).status) <==> Clears(r, now)
    ensures RecoverRow(r, now).status == Pending && r.content.deadline > now <==> Waits(r, now)
    ensures RecoverRow(r, now).status == Delivered <==> r.status == Delivered
    ensures RecoverRow(r, now).turn == r.turn && RecoverRow(r, now).content == r.content
  {
  }

  /** `q` belongs to an earlier turn of the lead of `p`. */
  predicate Earlier(db: Db, q: Id, p: Id) {
    && p in db.outbox && q in db.outbox && db.outbox[p].turn in db.events && db.outbox[q].turn in db.events
    && db.outbox[q].turn.lead == db.outbox[p].turn.lead
    && db.events[db.outbox[q].turn].version < db.events[db.outbox[p].turn].version
  }

  lemma BlockedAfterRecovery(db: Db, p: Id, now: Instant)
    requires p in db.outbox && db.outbox[p].turn in db.events
    ensures p in Recover(db, now).outbox && Recover(db, now).outbox[p].turn == db.outbox[p].turn
    ensures !Blocked(Recover(db, now), p) <==> forall q :: Earlier(db, q, p) ==> Clears(db.outbox[q], now)
  {
    var db' := Recover(db, now);
    RecoveredStatus(db.outbox[p], now);
    forall q | q in db.outbox
      ensures Blocks(db', q, p) <==> Earlier(db, q, p) && !Clears(db.outbox[q], now)
    {
      RecoveredStatus(db.outbox[q], now);
    }
  }

  lemma PredecessorAfterRecovery(db: Db, p: Id, now: Instant)
    requires p in db.outbox
    ensures p in Recover(db, now).outbox
    ensures PredecessorDelivered(Recover(db, now), p) <==> PredecessorDelivered(db, p)
  {
    var db' := Recover(db, now);
    RecoveredStatus(db.outbox[p], now);
    forall q | q in db.outbox
      ensures db'.outbox[q].turn == db.outbox[q].turn && db'.outbox[q].content == db.outbox[q].content
      ensures db'.outbox[q].status == Delivered <==> db.outbox[q].status == Delivered
    {
      RecoveredStatus(db.outbox[q], now);
    }
  }

  /** A row can be claimed after one recovery pass exactly when it waits, every
      row of an earlier turn of its lead clears, and its predecessor was delivered. */
  lemma EligibleAfterRecovery(db: Db, p: Id, now: Instant)
    requires p in db.outbox && db.outbox[p].turn in db.events
    ensures Eligible(Recover(db, now), now, p) <==>
              && Waits(db.outbox[p], now)
              && (forall q :: Earlier(db, q, p) ==> Clears(db.outbox[q], now))
              && (db.outbox[p].content.chunkIndex == 0 || PredecessorDelivered(db, p))
  {
    BlockedAfterRecovery(db, p, now);
    PredecessorAfterRecovery(db, p, now);
    RecoveredStatus(db.outbox[p], now);
    assert Recover(db, now).outbox[p] == RecoverRow(db.outbox[p], now);
  }

  /** With an eligible row in a sound store, a claim returns a claim. */
  lemma ClaimFindsWork(db: Db, p: Id, worker: Id, now: Instant, ttl: int, db': Db, e: Event)
    requires QueueInv(db) && !BadLease(now, ttl) && Eligible(Recover(db, now), now, p)
    requires PublicStepTo(db, ClaimPublic(worker, now, ttl), db', e)
    ensures e.Claimed?
  {
    RecoverKeepsInv(db, now);
    NoCorruptHead(Recover(db, now), now);
  }

  lemma NoCorruptHead(db: Db, now: Instant)
    requires Shape(db)
    ensures !HeadCorrupt(db, now)
  {
    forall p | p in db.outbox ensures db.outbox[p].content.chunkJson.Canonical? { assert Chunked(db, p); }
  }

  /** Once the clock is past every lease and every deadline of a lead's earlier
      turns, one claim call makes all their rows terminal, and a pending first
      chunk with a live deadline makes it return a claim. */
  lemma BlockingIsBounded(db: Db, p: Id, worker: Id, now: Instant, ttl: int, db': Db, e: Event)
    requires QueueInv(db) && !BadLease(now, ttl)
    requires p in db.outbox && db.outbox[p].status == Pending && db.outbox[p].content.chunkIndex == 0
    requires db.outbox[p].content.deadline > now
    requires forall q :: Earlier(db, q, p) ==>
               db.outbox[q].content.deadline <= now && (db.outbox[q].expiresAt.Some? ==> LeaseOver(db.outbox[q], now))
    requires PublicStepTo(db, ClaimPublic(worker, now, ttl), db', e)
    ensures e.Claimed?
    ensures forall q :: Earlier(db, q, p) ==> q in db'.outbox && !Live(db'.outbox[q].status)
  {
    forall q | Earlier(db, q, p) ensures Clears(db.outbox[q], now) { assert Linked(db, q); }
    EligibleAfterRecovery(db, p, now);
    ClaimFindsWork(db, p, worker, now, ttl, db', e);
    forall q | Earlier(db, q, p) ensures q in db'.outbox && !Live(db'.outbox[q].status) {
      RecoveredStatus(db.outbox[q], now);
      assert Recover(db, now).outbox[q] == RecoverRow(db.outbox[q], now);
    }
  }
}
